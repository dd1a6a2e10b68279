# Scalr demo application: connection layer

A Dafny model of the connection-resolution and failure-classification layer of the Scalr
three-tier demo application (`app/scalr.py`). The application reads four configuration
entries (MySQL username, password, primary host, replica host). From them it builds one
connection descriptor per role. It connects to the primary to write and to the replica to
read, lazily creates the `ScalrTest` database and its `ScalrValues` table on the primary,
and turns connection failures into messages and error pages.

Modules. The first three follow the components of the source file; `MySql`, `Text` and `Sorting` support them, and `Wrappers` holds the option and result types that stand in for exceptions:

- `Connection`: the descriptor `DBConnectionInformation`, a class with immutable fields.
  It holds the classification of connect failures (`NoConnectionEstablished`), `ips()`,
  `get_cursor()`, `get_values()` and `insert()`.
- `Configuration`: `ConnectionInfo`. It holds the loading of the four entries, the `master`
  and `slave` descriptors and `replicating()`.
- `Pages`: the choice of error page made by `prepare_page`.
- `MySql`: the database server, reduced to the state the application's statements touch.
  That state is whether the database and the table exist, and the stored values in
  retrieval order. Each SQL statement is a method of `DatabaseServer`. `ServerState` is
  the same state as a value.
- `Text` and `Sorting`: the Python 2 string operations the code relies on. These are
  `strip`, `join`, `"{0}".format` of an integer, and `sorted` on strings.

Inputs from outside the program are parameters:

- the configuration directory is a map from file name to file contents;
- the result of `MySQLdb.connect` is a `ConnectOutcome`: an OperationalError code, or a connection.
  A connection may carry an OperationalError that the server raises for `USE ScalrTest` whatever
  the database's state, such as 1044 when the user has no rights on the database;
- hostname resolution is a function from hostname to a `Resolution`.

The server behaviour assumed for the statements:

- `USE ScalrTest` fails with the connection's own `USE` error when it has one, and otherwise with
  code 1049 (unknown database) on a server without that database.
- `SELECT` or `INSERT` on a database without `ScalrValues` fails with code 1146 (no such table).
  MySQLdb raises that as a `ProgrammingError`, which `get_values` does not catch.
- The `CREATE ... IF NOT EXISTS` statements always succeed.

Behaviour of the code worth knowing:

- `replicating()` does not compare address sets. See Findings. The corrected comparison,
  `ReplicatingIntended`, takes one resolver function for both roles. The fixed code would
  make two separate DNS lookups, which could answer differently for the same host.
- Reading from a primary that was never provisioned returns `[]`, but not by the
  "unknown database" path. `get_cursor` creates the empty table first, then reads it.
- The constant `DB = 'test-db'` is unused. The database is always `ScalrTest`.

## Model

| member | source | states |
|---|---|---|
| `Text.Strip` | app/scalr.py:175 | the stripped entry neither starts nor ends with whitespace and is no longer than the raw entry |
| `Text.StripExact` | app/scalr.py:175 | stripping removes exactly the whitespace around a value, whatever that whitespace is |
| `Text.StripIdempotent` | app/scalr.py:175 | stripping an already stripped entry changes nothing |
| `Text.IntToDecimalRoundTrip` | app/scalr.py:137 | the decimal text of an error code reads back as the same code, negative codes included |
| `Text.SplitJoin` | app/scalr.py:124 | splitting the comma-joined address list at commas gives the list back (non-empty list, no comma inside an address) |
| `Sorting.Sort` | app/scalr.py:124 | `sorted` yields an ascending permutation of the addresses in Python string order |
| `Sorting.SortEqualIff` | app/scalr.py:124 | two address lists sort to the same list exactly when they hold the same addresses with the same multiplicities |
| `MySql.Provisioned` | app/scalr.py:142-144 | after the primary's setup the database and the table exist and the stored rows are unchanged; if both already existed the state is unchanged |
| `MySql.ProvisionedIdempotent` | app/scalr.py:142-144 | running the primary's setup twice is the same as running it once |
| `MySql.DatabaseServer.CreateDatabaseIfNotExists` | app/scalr.py:142 | the database exists afterwards and nothing else changes |
| `MySql.DatabaseServer.Use` | app/scalr.py:143 | selecting the database fails with the session's error when there is one, and otherwise with 1049 exactly when the database does not exist |
| `MySql.DatabaseServer.CreateTableIfNotExists` | app/scalr.py:144 | the table exists afterwards and nothing else changes, stored rows included |
| `MySql.DatabaseServer.SelectValues` | app/scalr.py:153 | fails with 1146 when the table is absent; otherwise one single-column row per stored value, in storage order |
| `MySql.DatabaseServer.InsertAndCommit` | app/scalr.py:163-164 | fails with 1146 and changes nothing when the table is absent; otherwise appends exactly the value after the existing rows |
| `Connection.ReasonOf` | app/scalr.py:132-137 | code 2005 is "host does not exist" and only it; code 1045 is "access denied" and only it; every other code is unclassified and keeps the raw code |
| `Connection.Describe` | app/scalr.py:134-137 | the "host does not exist" message names the hostname; the "incorrect" message names the username and the password; any other failure's message carries the raw code, which reads back |
| `Connection.DescribeRoundTrip` | app/scalr.py:134-137 | the three messages never coincide: the reason, and for an unclassified failure the raw code, can be read back from the message |
| `Connection.Classify` | app/scalr.py:131-137 | a refused connect yields one `NoConnectionEstablished` that carries the descriptor, with a message from which the classified reason reads back |
| `Connection.Truncate` | app/scalr.py:163 | the stored value is the prefix of the input of length min(length, `VALUE_LENGTH`), with `VALUE_LENGTH` = 200 as set at app/scalr.py:16 |
| `Connection.TruncateIdempotent` | app/scalr.py:163 | a value of at most 200 characters is stored unchanged, so truncating twice is truncating once |
| `Connection.FirstColumn` | app/scalr.py:159 | one value per fetched row, in fetch order, each the row's first column |
| `Connection.FormatAddresses` | app/scalr.py:123-126 | a resolver error shows "Resolution error: " followed by its message; the text of a resolved host splits back at the commas into a sorted permutation of its addresses |
| `Connection.FormatAddressesEqualIff` | app/scalr.py:124 | two resolved hosts show the same `ips()` text exactly when their address lists hold the same addresses |
| `Connection.DBConnectionInformation.constructor` | app/scalr.py:116-120 | the descriptor holds the hostname, credentials and role flag it was given, and never changes |
| `Connection.DBConnectionInformation.Ips` | app/scalr.py:122-126 | a resolution error gives "Resolution error: " followed by the resolver's message; a resolved host gives its sorted addresses joined by commas |
| `Connection.DBConnectionInformation.GetCursor` | app/scalr.py:128-148 | a refused connect raises the classified failure and touches nothing; a rejected `USE` raises its OperationalError, after the primary has created the database; otherwise the primary ends with the provisioned schema and its rows unchanged, and the replica changes nothing and fails with 1049 exactly when the database is absent |
| `Connection.DBConnectionInformation.GetValues` | app/scalr.py:150-159 | a refused connect propagates its classified failure; an OperationalError 1049 reads as `[]` and every other OperationalError code is re-raised unchanged; otherwise every stored value is returned in storage order, and a missing table on the replica reaches the caller uncaught as a `ProgrammingError` 1146 |
| `Connection.DBConnectionInformation.Insert` | app/scalr.py:161-164 | a refused connect propagates its classified failure; on the primary exactly one row, the truncated value, is appended after the unchanged existing rows; on the replica the statements fail when the database or table is absent; a rejected `USE` raises its OperationalError uncaught |
| `Configuration.ConnectionInfo.Load` | app/scalr.py:168-177 | loading succeeds exactly when all four entries can be read, and then each field is its stripped entry; otherwise `NoConnectionInfo` and no object |
| `Configuration.ConnectionInfo.ConnectionInformation` | app/scalr.py:179-181 | a new descriptor with the role's hostname, the shared credentials and the given role flag |
| `Configuration.ConnectionInfo.Master` | app/scalr.py:183-185 | a new descriptor on each access, with the primary hostname, the shared credentials and role flag true |
| `Configuration.ConnectionInfo.Slave` | app/scalr.py:187-189 | a new descriptor on each access, with the replica hostname, the shared credentials and role flag false |
| `Configuration.ConnectionInfo.Replicating` | app/scalr.py:191-192 | as written, true for every configuration and every network state |
| `Configuration.ReplicatingDiscrepancy` | app/scalr.py:191-192 | with both roles on one host, the code as written reports replication and the intended comparison does not |
| `Configuration.ConnectionInfo.ReplicatingIntended` | app/scalr.py:191-192 | corrected status: never reports replication when both roles name the same host |
| `Configuration.ConnectionInfo.ReplicatingIntendedMeaning` | app/scalr.py:191-192 | the intended status is false when both roles name the same host; when both resolve, it is true exactly when the address lists differ as multisets |
| `Pages.PreparePage` | app/scalr.py:208-221 | missing configuration selects the unconfigured view; a `NoConnectionEstablished` selects the write-error view exactly when its descriptor is the primary and the read-error view otherwise, with its message unchanged; other exceptions pass through |
| `Pages.ErrorPageCause` | app/scalr.py:208-221 | an error page appears exactly when configuration is missing or a connect failed, and the unconfigured view exactly when configuration is missing |

## Left out

- Flask routing, `url_for`, `redirect`, `request.form` and `app.run` (app/scalr.py:225-241) are web plumbing. The bodies of `page_get` and `page_post` are therefore not modelled. `PreparePage` takes the page body's outcome as a function of the configuration.
- Jinja templates and HTML rendering are presentation only. `Pages.View` names the template that is chosen. The host name shown on every page (`socket.gethostname()`) is not modelled.
- The MySQLdb network transport is replaced by `DatabaseServer` and a `ConnectOutcome` parameter. Which server a hostname reaches is the caller's choice. Exceptions other than `OperationalError` from `connect` are not modelled.
- Failures of the `CREATE`, `SELECT` and `INSERT` statements other than a missing table (missing privileges, for example) are not modelled. Only `USE` can be rejected by the server with an arbitrary OperationalError code.
- Server-side column behaviour is not modelled: the `CHAR(200)` width, the utf8 character set and collation, and the removal of trailing spaces on retrieval.
- A read-only replica that rejects inserts is not modelled. Inserting through the replica descriptor behaves like any other server.
- Transactions are not modelled. `INSERT` and its immediate `COMMIT` form one step, `InsertAndCommit`.
- `socket.herror` from `gethostbyname_ex` escapes `ips()` uncaught and is not modelled. Only `socket.gaierror` is.
- The configuration directory (`/var/config`) and `os.path.join` are not modelled. The source is a map from file name to contents. Every read failure is an absent key, as every `IOError` is treated alike.
- Python 2 exception-tuple indexing (`e[0]`, `e[1]`) becomes an integer code field and a message field.
- `insert(None)`, which arises when the form has no `value` field, raises a `TypeError` at the slice in app/scalr.py:163. By then `get_cursor` has already connected and provisioned the primary. Strings are never absent in the model.
- `Connection.FormatAddresses` and `Connection.FormatAddressesEqualIff` state their address properties only for non-empty address lists whose addresses contain no comma. Resolved IPv4 addresses meet both conditions; `[]` and `[""]` both show as the empty text.

## Findings

| source | as written | input that shows it | evidently intended | confidence | as-written member | corrected member |
|---|---|---|---|---|---|---|
| app/scalr.py:191-192 | `self.master.ips != self.slave.ips` compares two bound methods without calling them, on two freshly built descriptors, so they are never equal | both `mysql-master` and `mysql-slave` name the same host: `replicating()` is true (`Configuration.ReplicatingDiscrepancy`) | compare the two `ips()` texts: false when both roles resolve to the same addresses | high, not executed | `Configuration.ConnectionInfo.Replicating` | `Configuration.ConnectionInfo.ReplicatingIntended` |
