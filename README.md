# kymar core, modelled in Dafny

kymar is a desktop client for MySQL and PostgreSQL. The connection can be routed through an SSH tunnel. This project models the parts of the client that hold logic rather than widget wiring:

- **The connection broker** (`internal/db/connection.go`, `Connect`), in `connection.dfy`:
  - the driver choice and the two connection-string formats;
  - the effective PostgreSQL address: the loopback forwarder when tunnelling;
  - readers that take each connection string apart again, as round-trip partners;
  - the package-level resolver state: the `currentSSHDialer` cell and the `registerSSHOnce` gate;
  - the order of the steps: tunnel, listener, `sql.Open`, pool limits, ping;
  - the composite close handle and the forwarder's accept loop.
- **The saved-connection list** (`internal/config/config.go`), in `config.dfy`: upsert by name, delete-first, and first-match lookup over the `Connections` slice. `Save` is a counter, and its error is an input.
- **The result grid** (`internal/ui/main_interface.go`), in `grid.dfy`:
  - the thousands separator and the byte-unit choice;
  - the column-width rule, the grid shape and the cell texts;
  - the sort and selection toggles;
  - the query-versus-exec classification and the result set that `runQuery` leaves behind.
- **The login forms** (`internal/ui/login.go`), in `login.dfy`:
  - the engine switch that swaps default port and user;
  - the label-to-`DBType` mapping;
  - the `ConnParams` that each tab builds;
  - the default name of a saved connection.

Supporting modules:

- `models.dfy` transcribes `ConnParams` and `SavedConnection`.
- `text.dfy` writes out the Go library behaviour the core depends on: `%d`, `strconv.Atoi` on 64-bit `int` (including its clamping on overflow), `strings.TrimSpace`, ASCII `strings.ToLower`, `strings.HasPrefix`, and `len` as a UTF-8 byte count.
- `wrappers.dfy` holds `Option` and `Result`.

External calls become inputs:

- `Connect` takes an `Environment`. It holds the outcomes of the SSH dial, `net.Listen` (the port the OS chose), `sql.Open` and the ping.
- What `Connect` does is recorded as a log of effects, and the `Broker` class appends to it.
- `runQuery` takes what the database answers on the query path and on the exec path.
- The login tabs take the error that `Save` returns.

Points where the code behaves differently from what a reader might expect, and which the model reproduces:

- The close handle never closes the database handle. The GUI's Disconnect button does that separately.
- A failed ping closes only the database handle and returns no closer. The tunnel and the forwarder stay open.
- A failed listener bind returns without closing the SSH session.
- `currentSSHDialer` is cleared only by a later non-SSH `Connect`, never by a close.
- PostgreSQL over SSH is supported, through the forwarder.

## Model

| member | source | states |
|---|---|---|
| Text.Atoi | internal/ui/login.go:150 | strconv.Atoi on 64-bit int: the result is an int64; an error gives 0 unless the value was clamped to an int64 bound; empty text gives 0 with an error |
| Text.TrimSpace | internal/ui/login.go:144-147 | the trimmed text starts and ends with a non-space and is no longer than the input |
| Text.AtoiDecimal | internal/ui/login.go:150 | printing an int64 with %d and reading it back with Atoi gives the same number with no error |
| Text.TrimSpacePadded | internal/ui/login.go:144-147 | TrimSpace removes exactly the white-space padding around a text that has none of its own |
| Text.ToLower | internal/ui/main_interface.go:360 | lower-casing keeps the length and lower-cases each character |
| Text.ByteLen | internal/ui/main_interface.go:116 | Go's len of a string lies between the character count and four times it |
| Connection.Protocol | internal/db/connection.go:117-120 | the MySQL network is "ssh" exactly when UseSSH holds and "tcp" exactly when it does not |
| Connection.EffectiveAddress | internal/db/connection.go:107-114 | the driver targets 127.0.0.1 and the listener's port exactly when UseSSH holds, DBType is postgres and a forwarder exists; otherwise Host and Port |
| Connection.DriverChoice | internal/db/connection.go:116-138 | driver "mysql" exactly for DBType "mysql" and "postgres" for every other value; MySQL gets its DSN and PostgreSQL a key/value string built against the effective address |
| Connection.MySqlDsnLayout | internal/db/connection.go:122-127 | both branches of the MySQL format produce one layout, user:pass@proto(host:port)/db?params, so an empty DB leaves the path "/?parseTime=true&multiStatements=true" |
| Connection.ReadMySqlDsnRoundTrip | internal/db/connection.go:116-128 | for a user without ':', a host without '@' and a database without '/' or '?', reading the MySQL DSN back yields the user, the password, the protocol, the real Host:Port, the database and the fixed parameters; Host:Port splits back into Host and Port when the host holds no ':' or bracket |
| Connection.ColonUserMisread | internal/db/connection.go:122-127 | a user name holding ':' is written unescaped, and the driver cuts the user at that colon and moves the rest into the password |
| Connection.SplitHostPort | internal/db/connection.go:122-127 | Go's host/port split: a split address is host:port or [host]:port, and the port holds no ':' |
| Connection.SplitHostPortOf | internal/db/connection.go:122-127 | the host:port text written into the MySQL DSN splits at its last ':' back into the host and the decimal port, for a host with no ':' or bracket |
| Connection.SplitHostPortColonHost | internal/db/connection.go:122-127 | a host holding ':', such as an IPv6 literal, is written without brackets, and the address no longer splits |
| Connection.PostgresDsnLayout | internal/db/connection.go:130-136 | the PostgreSQL string is its fields written as space-separated key=value tokens |
| Connection.PostgresFieldsDbName | internal/db/connection.go:130-136 | the dbname field is present exactly when DB is non-empty |
| Connection.Options | internal/db/connection.go:129-138 | the string's pairs, with a later key overriding an earlier one, carry exactly these keys |
| Connection.ReadJoinKeyValues | internal/db/connection.go:129-138 | lib/pq's reader gives back every list of plain key=value pairs written with single spaces between them |
| Connection.ReadJoinEmptyValue | internal/db/connection.go:130-136 | a key written with an empty value takes the whole next token as its value, because lib/pq skips the blank after '=' |
| Connection.ReadPostgresDsnRoundTrip | internal/db/connection.go:129-138 | when host, user, password and any database are non-empty and free of white space, backslashes and a leading quote, lib/pq reads back host, port, user, password, dbname only for a non-empty DB, then sslmode=disable, and uses TLS mode disable |
| Connection.EmptyPasswordLosesSslMode | internal/db/connection.go:130-136 | with an empty password and no database, lib/pq reads "sslmode=disable" as the password, so sslmode is absent from the string, and without PGSSLMODE and for a TCP host lib/pq's default, require, applies |
| Connection.EmptyPasswordLosesDbName | internal/db/connection.go:130-136 | with an empty password and a database, lib/pq reads "dbname=…" as the password and the database name is lost |
| Connection.EmptyUserLosesPassword | internal/db/connection.go:130-136 | with an empty user, lib/pq reads "password=…" as the user name and the password is lost |
| Connection.PlanRegistersOnce | internal/db/connection.go:46-54 | a Connect call registers the "ssh" resolver exactly when it was not yet registered and the tunnel opened; registration is never undone |
| Connection.TunnelRegistersOnce | internal/db/connection.go:34-54 | once the tunnel is open, the call marks the resolver registered and logs one registration exactly when none was logged before |
| Connection.PlanResolve | internal/db/connection.go:42-54 | after Connect the ssh resolver dials through the new tunnel; without SSH it falls back to the 5-second direct TCP dialer (if registered); a tunnel failure leaves it unchanged |
| Connection.PlanWithoutSsh | internal/db/connection.go:100-102 | without SSH, Connect opens no tunnel or listener, starts no forwarder, registers nothing, sets the dialer cell to nil and returns the no-op closer |
| Connection.PlanOutcome | internal/db/connection.go:28-156 | Connect returns the error of the first failing step (tunnel, listener, open, ping) or the handle with its closer: none without SSH, the session closer for MySQL, the composite for PostgreSQL |
| Connection.PlanConnectedIff | internal/db/connection.go:28-156 | Connect succeeds exactly when the tunnel and listener (where needed), sql.Open and the ping all succeed |
| Connection.PlanOpenSequence | internal/db/connection.go:140-153 | a call that gets to sql.Open sets lifetime 5 minutes, 5 open and 2 idle connections, then pings with a 5-second timeout; a failed ping closes only the handle |
| Connection.PlanTunnelledDsn | internal/db/connection.go:104-138 | over SSH, PostgreSQL is pointed at 127.0.0.1 and the forwarder's port, while MySQL keeps the real Host:Port behind the ssh protocol |
| Connection.PlanReleasesNothing | internal/db/connection.go:28-156 | Connect never closes a tunnel, listener or done channel, whatever fails, and names only this call's resources |
| Connection.PlanKeepsTunnel | internal/db/connection.go:34-62 | once the tunnel opened it stays open and the dialer cell names it, even when the listener, open or ping fails |
| Connection.StopIndex | internal/db/connection.go:67-76 | the accept loop returns at the first Accept that fails after done was signalled, and at no earlier call |
| Connection.RunAcceptLoop | internal/db/connection.go:66-89 | the loop stops where StopIndex says and starts one bridge per accepted client before that point |
| Connection.UnsignalledNeverStops | internal/db/connection.go:68-75 | while done is not signalled, an accept error never ends the loop, even on a closed listener |
| Connection.CloseSignalsFirst | internal/db/connection.go:91-98 | at every point of the composite close, a closed listener implies done was signalled, and the session closes only after both |
| Connection.ForwarderStopsAfterClose | internal/db/connection.go:67-98 | no Accept sees a closed listener without done, and after the full close the next Accept ends the loop |
| Connection.Broker.constructor | internal/db/connection.go:18-25 | a fresh process has nothing registered and a nil dialer cell |
| Connection.Broker.Connect | internal/db/connection.go:28-156 | Connect follows ConnectPlan on the package state and keeps the state valid: at most one registration, and the dialer set only after it; a returned closer names only this call's resources, so it can be called once |
| Connection.Broker.ConnectSteps | internal/db/connection.go:28-156 | the steps taken in source order produce exactly the effects, result, dialer cell and registration flag of ConnectPlan |
| Connection.Broker.Close | internal/db/connection.go:91-98 | the no-op closer returns nil; the MySQL closer closes the session; the PostgreSQL closer signals done, closes the listener, then closes the session and returns its error; the dialer cell is left set; at most one call |
| Config.FindFirst | internal/config/config.go:80-86 | the index found holds the name and no earlier entry does; none is found exactly when no entry has the name |
| Config.UpsertExisting | internal/config/config.go:80-86 | saving under a present name replaces the first such entry in place; the length and every other entry are unchanged |
| Config.UpsertFresh | internal/config/config.go:88-90 | saving under a new name appends at the end and keeps every earlier entry |
| Config.LookupUpsert | internal/config/config.go:78-112 | after saving c, looking up c's name gives c; every other name looks up as before |
| Config.UpsertDistinct | internal/config/config.go:78-91 | saving keeps names distinct when they were distinct before |
| Config.RemoveFirst | internal/config/config.go:94-102 | delete removes only the first entry with the name and keeps the rest in order; an absent name leaves the list unchanged |
| Config.LookupRemove | internal/config/config.go:94-112 | with distinct names, a deleted name is no longer found |
| Config.RemoveUpsertFresh | internal/config/config.go:78-102 | saving under a new name and then deleting that name gives back the original list |
| Config.Store.constructor | internal/config/config.go:19-21 | a store holds the loaded list and has not saved yet |
| Config.Store.AddConnection | internal/config/config.go:78-91 | the list becomes the upsert of the connection, Save runs exactly once, and its error is returned |
| Config.Store.RemoveConnection | internal/config/config.go:94-102 | the list becomes the first-match delete; Save runs, and its error is returned, exactly when something was removed; otherwise nil |
| Config.Store.GetConnection | internal/config/config.go:105-112 | returns the first entry with the name, or nothing exactly when no entry has it |
| Grid.GroupDigits | internal/ui/main_interface.go:167-180 | grouping a digit string adds one comma per full group of three digits after the first |
| Grid.GroupDigitsRemoveCommas | internal/ui/main_interface.go:167-180 | deleting the commas from a grouped digit string gives back the digits |
| Grid.InterleaveGroups | internal/ui/main_interface.go:173-178 | the loop's rule (a comma before position i > 0 where (len - i) mod 3 = 0) equals grouping in threes from the right |
| Grid.FormatNumber | internal/ui/main_interface.go:167-180 | below 1000, negatives included, the plain decimal; otherwise the decimal grouped in threes; deleting the commas always gives the plain decimal |
| Grid.FormatBytes | internal/ui/main_interface.go:153-164 | below 1024 the size in bytes; otherwise div = 1024^(exp+1) with div <= bytes < 1024*div and exp <= 5, so the unit letter of "KMGTPE" exists |
| Grid.ExponentBound | internal/ui/main_interface.go:158-163 | no int64 size reaches 1024^7, so the exponent never passes 5 |
| Grid.ContentWidthIsMax | internal/ui/main_interface.go:115-132 | the content width is the largest of 8 per header byte and 7 per byte of each inspected cell, and equals one of them |
| Grid.ContentWidthPrefix | internal/ui/main_interface.go:119-132 | rows past the inspected ones do not affect the content width |
| Grid.ColumnWidth | internal/ui/main_interface.go:134-141 | a column width always lies in [100, 300] |
| Grid.RowsPastTenIgnored | internal/ui/main_interface.go:120-123 | rows after the tenth never change a column's width |
| Grid.ComputeColumnWidth | internal/ui/main_interface.go:108-141 | the loop computes the width rule, and the result lies in [100, 300] |
| Grid.SetWidthsEffect | internal/ui/main_interface.go:108-145 | setting the widths gives every column its rule width and leaves other entries alone |
| Grid.Dimensions | internal/ui/main_interface.go:44-48 | the grid is 1x1 without headers, otherwise (rows + 1) x headers |
| Grid.HeaderCell | internal/ui/main_interface.go:62-78 | a header cell is the header itself, plus " ▲" for ASC or " ▼" otherwise exactly on the column named sortColumn of a browsed table; empty past the last header |
| Grid.DataCellAt | internal/ui/main_interface.go:86-103 | a data cell shows its text exactly when the row and column exist, and it is highlighted exactly when its row is selected |
| Grid.SortToggle | internal/ui/main_interface.go:436-449 | a click sorts by the clicked column; the direction becomes DESC exactly when that column was already sorted ASC, and ASC otherwise |
| Grid.SortToggleTwice | internal/ui/main_interface.go:438-444 | two clicks on the sorted column restore its direction |
| Grid.SelectToggle | internal/ui/main_interface.go:466-475 | clicking a row selects it, or deselects (-1) exactly when it was already selected |
| Grid.SelectToggleTwice | internal/ui/main_interface.go:466-475 | clicking a row twice deselects it, or reselects it if it started selected |
| Grid.IsQueryCaseInsensitive | internal/ui/main_interface.go:360-361 | the query-versus-exec classification ignores letter case |
| Grid.SelectIsQuery | internal/ui/main_interface.go:360-361 | a statement starting with SELECT, in any case, takes the query path |
| Grid.Quote | internal/ui/main_interface.go:453-459 | MySQL quotes identifiers with backticks, every other engine with double quotes |
| Grid.SortQueryShape | internal/ui/main_interface.go:452-462 | the ORDER BY query written on a header click takes the query path and is unchanged by trimming |
| Grid.SortQueryNonBlank | internal/ui/main_interface.go:452-462 | the ORDER BY query is never blank, so running it always resets the result set |
| Grid.RenderRow | internal/ui/main_interface.go:396-403 | a scanned row becomes its cell texts, with SQL NULL shown as "NULL" |
| Grid.RenderRows | internal/ui/main_interface.go:391-409 | every scanned row is rendered, in order |
| Grid.DescribeColumns | internal/ui/main_interface.go:376-383 | each column gives its name and a "name (TYPE)" header, in order |
| Grid.ResultGrid.constructor | internal/ui/main_interface.go:24-40 | the grid starts empty: no headers, no rows, no selected row (-1), no table |
| Grid.ResultGrid.SetupTableColumns | internal/ui/main_interface.go:108-146 | every column gets its rule width, within [100, 300]; nothing else changes |
| Grid.ResultGrid.RunQuery | internal/ui/main_interface.go:343-430 | a blank statement changes nothing; otherwise the selection resets to -1 and the grid holds the query's columns and rendered rows, or "Result" and "OK, n row(s) affected", or is empty on error; widths are set on success |
| Grid.ResultGrid.RunStatement | internal/ui/main_interface.go:355-429 | the result set is cleared and the selection reset to -1; a SELECT/SHOW/DESC statement shows the query result, any other the exec result |
| Grid.ResultGrid.ShowQueryResult | internal/ui/main_interface.go:362-416 | the grid shows the columns' headers and names and the rendered rows; a query or column error leaves it empty, a scan error keeps the rows read so far; widths are set only on a clean scan |
| Grid.ResultGrid.ShowExecResult | internal/ui/main_interface.go:418-429 | an exec shows the single "Result" column with "OK, n row(s) affected" and sets the widths; an exec error leaves the grid empty |
| Grid.ResultGrid.RunText | internal/ui/main_interface.go:343-430 | the editor holds the given statement, which then runs as runQuery does: without a connection or on blank text nothing else changes; otherwise the selection resets and the grid shows the query result or the exec result by the trimmed statement's prefix |
| Grid.ResultGrid.RunSortQuery | internal/ui/main_interface.go:452-463 | the editor holds the ORDER BY query, which on a live connection always takes the query path and leaves the grid showing its result; without a connection nothing but the editor changes |
| Grid.ResultGrid.SortByColumn | internal/ui/main_interface.go:434-464 | a header click applies the sort toggle, writes the ORDER BY query and shows its result on a live connection; without one the result set, the selection and the widths are kept |
| Grid.ResultGrid.CellSelected | internal/ui/main_interface.go:433-479 | a header click on a browsed table sorts and shows the ORDER BY query's result; a data-row click toggles that row's selection and changes nothing else; any other row-0 click changes nothing |
| Grid.ResultGrid.TableChosen | internal/ui/main_interface.go:519-565 | choosing a table browses it, sorts by id ASC, and shows the matching query's result on a live connection, with the selection reset |
| Login.EngineSwitch | internal/ui/login.go:117-133 | switching to MySQL makes the port 3306 if it was 5432 or empty and the user root if it was postgres; switching to PostgreSQL does the reverse; everything else is kept |
| Login.EngineSwitchIdempotent | internal/ui/login.go:117-133 | selecting the same engine twice has the effect of selecting it once |
| Login.EngineSwitchRoundTrip | internal/ui/login.go:117-133 | switching to the other engine and back restores an engine's defaults; a port and user that are no engine's default are never touched |
| Login.DBTypeOf | internal/ui/login.go:137-140 | "PostgreSQL" maps to "postgres" and every other label maps to "mysql" |
| Login.TcpParams | internal/ui/login.go:137-150 | the TCP/IP tab's parameters: DBType from the label, trimmed host, user and database, the password verbatim, no SSH, an int64 port |
| Login.SshParams | internal/ui/login.go:313-330 | the SSH tab's parameters: as the TCP/IP tab's, with UseSSH on, trimmed SSH host and user, and the SSH password verbatim |
| Login.TcpParamsTrim | internal/ui/login.go:142-149 | white space typed around host, user or database does not reach the parameters |
| Login.PortTextRoundTrip | internal/ui/login.go:150 | a port typed as a decimal, with white space around it, is read as that number |
| Login.ScanLeadingNonDigit | internal/ui/login.go:150 | Atoi's digit loop stops with a syntax error when a non-digit comes before any digit |
| Login.UnparsablePortIsZero | internal/ui/login.go:150 | a blank port, or one that does not start with a sign or digit, becomes port 0 |
| Login.TabsAgree | internal/ui/login.go:318-330 | the two tabs build the same database fields and differ only in the tunnel |
| Login.TcpSaveName | internal/ui/login.go:154-157 | the trimmed typed name, or Host:Port when it is blank |
| Login.SshSaveName | internal/ui/login.go:334-337 | the trimmed typed name, or "Host via SSH" when it is blank |
| Login.TcpDefaultNameRoundTrip | internal/ui/login.go:154-157 | the default TCP/IP name splits at its last ':' back into the host and the port |
| Login.TypedNameKept | internal/ui/login.go:154-157 | a typed name with white space around it is saved without that padding |
| Login.TcpTab.constructor | internal/ui/login.go:93-114 | the tab starts on MySQL, 127.0.0.1, root and port 3306 |
| Login.TcpTab.EngineChanged | internal/ui/login.go:117-133 | the selector callback rewrites port and user by the engine rule and leaves every other field alone |
| Login.TcpTab.Connect | internal/ui/login.go:136-172 | builds the TCP/IP parameters; when Save is ticked, upserts them under the typed or default name, Save runs once, and its error is reported |
| Login.SshTab.constructor | internal/ui/login.go:258-310 | the tab starts on MySQL, 127.0.0.1, root, port 3306 and SSH port 22 |
| Login.SshTab.EngineChanged | internal/ui/login.go:280-296 | the same port/user rule as the TCP/IP tab; the SSH fields are left alone |
| Login.SshTab.Connect | internal/ui/login.go:312-352 | builds the SSH parameters; when Save is ticked, upserts them under the typed name or "Host via SSH" |

## Left out

- `internal/ssh/tunnel.go` is not part of this model beyond its interface. The SSH dial either fails with an error from the environment or yields a tunnel named by the broker. Its host-key policy, 5-second dial timeout and per-address channel dial belong to the SSH library.
- Networking and concurrency in `Connect` are left out: `net.Listen`, the forwarder goroutine, the per-connection bridging goroutines with their `io.Copy`, contexts and timeouts. The accept loop keeps only its stop rule and the bridges it starts. A listener's address is always a TCP address, so the failing type assertion at connection.go:110 is not modelled.
- Connection.Broker.Close: the data race on `currentSSHDialer` between concurrent `Connect` calls and in-flight dials is not modelled, because the model runs one call at a time.
- Connection.Broker.Close: the "at most once" rule is a precondition and not a runtime error. Closing a closed channel panics in Go, and the model does not represent panics.
- `sql.Open`, the pool setters and `PingContext` are foreign driver calls. Their outcomes are inputs and their calls are recorded effects.
- `config.Load`, `Save` and `getConfigPath` are JSON and filesystem I/O. `Save` is a counter plus an error input. The reload done by `refreshConnections` and the saved-list click that passes stored parameters to `onConnect` are left out for the same reason.
- Grid.FormatBytes: the `%.1f` rendering of the quotient is floating point and is left out. The model gives the divisor, the exponent and the unit letter, and proves the quotient lies in [1, 1024).
- Grid.ColumnWidth: pixel widths are integers here. The source uses float32, but every value involved is a small integer, so the clamp is unaffected.
- The database round-trips in `main_interface.go` are left out: `updateTableInfo`, `fetchTables`, the `USE` switch when browsing databases, the periodic table refresh during scanning, the status text and the time measurement.
- Grid.ResultGrid.TableChosen: only the table branch of the sidebar click is modelled. The database branch (`USE` and refresh) is a database round-trip.
- Grid.ResultGrid.RunQuery: a scan error is modelled as ending the rows after those already scanned. The driver's own row-iteration state is not modelled.
- Connection.ReadPostgresDsnRoundTrip: holds only for plain values. The connection code quotes and escapes nothing. lib/pq misreads an empty host, user or password (EmptyPasswordLosesSslMode, EmptyPasswordLosesDbName, EmptyUserLosesPassword), and it also misreads a value holding white space or a backslash, or one opening with a quote.
- Connection.Options: only the pairs written in the string are modelled. lib/pq first seeds host=localhost, port=5432 and extra_float_digits=2, then merges the PG* environment variables (PGSSLMODE, PGDATABASE and others), and after parsing forces sslmode=disable for a host that starts with '/' (a Unix socket). The environment is not part of this model, and neither are the defaults or the socket override.
- Connection.ReadMySqlDsnRoundTrip: holds only for a user without ':', a host without '@' and a database without '/' or '?'. The connection code accepts the other values and writes them unescaped, so the driver splits them at the wrong separator (ColonUserMisread).
- Connection.ReadMySqlDsnRoundTrip: Host:Port splits back only for a host without ':' or brackets. An IPv6 host is written without brackets and fails Go's host/port split (SplitHostPortColonHost).
- Connection.ReadMySqlDsn: the database name is read verbatim. go-sql-driver releases that unescape it as a URL path read a name holding '%' differently; that unescaping is not modelled.
- Text.ByteLen: cells are scanned as raw bytes (`sql.RawBytes`) and may not be valid UTF-8. The model takes cell text as characters and counts their UTF-8 encoding, so the width rule is not stated for invalid byte sequences.
- Text.ToLower: only ASCII letters are mapped. Go's Unicode case mapping of other letters is not modelled.
- The Socket tab only shows a "not implemented" dialog, and the Disconnect button only calls `dbh.Close` and the closer returned by `Connect`.
- `internal/ui/theme.go` and `cmd/kymar/main.go` are a constant style table and window wiring, with no logic.
