/**
 * The connection broker (internal/db/connection.go, `Connect`).
 *
 * The broker turns `ConnParams` into a driver name and a connection string,
 * optionally opening an SSH tunnel first. MySQL reaches the tunnel through a
 * dial function registered once, process-wide, under the protocol name "ssh";
 * PostgreSQL cannot take a custom dialer, so a loopback TCP forwarder is put in
 * front of the tunnel and the connection string is pointed at it.
 *
 * The model has four parts: the pure connection-string builders (with readers
 * that recover the fields, as round-trip partners); the `Broker` class holding
 * the package-level state (`currentSSHDialer`, `registerSSHOnce`) together with
 * the resources the steps open; the composite closer; and the forwarder's
 * accept loop, driven by a trace of accept outcomes.
 */
module Connection {
  import opened Wrappers
  import opened Text
  import opened Models

  /** The query part appended to every MySQL connection string. */
  const MySqlParams: string := "parseTime=true&multiStatements=true"
  const MySqlQuery: string := "?" + MySqlParams
  /** The loopback host the PostgreSQL forwarder listens on. */
  const Loopback: string := "127.0.0.1"
  /** The listen address handed to net.Listen: loopback, port chosen by the OS. */
  const ForwarderListenAddr: string := "127.0.0.1:0"

  /** Pool limits and timeouts set by Connect. */
  const ConnMaxLifetimeSeconds: nat := 5 * 60
  const MaxOpenConns: nat := 5
  const MaxIdleConns: nat := 2
  const PingTimeoutSeconds: nat := 5
  /** Timeout of the direct TCP dialer the "ssh" resolver falls back to. */
  const DirectDialTimeoutSeconds: nat := 5

  // ---------------------------------------------------------------------------
  // Connection strings

  /** The MySQL network name: the registered "ssh" dialer when tunnelling, plain "tcp" otherwise. */
  function Protocol(useSSH: bool): (proto: string)
    ensures proto == "ssh" <==> useSSH
    ensures proto == "tcp" <==> !useSSH
  {
    if useSSH then "ssh" else "tcp"
  }

  /**
   * The go-sql-driver DSN `user:pass@proto(host:port)/db?parseTime=true&multiStatements=true`.
   * It always names the real `Host:Port`, tunnelled or not; the empty-database
   * branch of the source writes the database segment out of the format.
   */
  function MySqlDsn(p: ConnParams): (dsn: string)
  {
    var target := Protocol(p.UseSSH) + "(" + (p.Host + ":" + Decimal(p.Port)) + ")";
    if p.DB == "" then (p.User + ":" + p.Pass) + "@" + target + "/" + MySqlQuery
    else (p.User + ":" + p.Pass) + "@" + target + "/" + (p.DB + MySqlQuery)
  }

  /** The keys of the lib/pq connection string, and the TLS mode it asks for. */
  const HostKey: string := "host"
  const PortKey: string := "port"
  const UserKey: string := "user"
  const PasswordKey: string := "password"
  const DbNameKey: string := "dbname"
  const SslModeKey: string := "sslmode"
  const SslDisable: string := "disable"

  /**
   * The lib/pq key/value connection string, against the given (effective)
   * host and port: `host=… port=… user=… password=…`, then `dbname=…` only
   * for a non-empty database, then `sslmode=disable`. Written right-nested;
   * the text is that of both formats of the source.
   */
  function PostgresDsn(host: string, port: int, p: ConnParams): (dsn: string)
  {
    var tail := if p.DB == "" then Field(SslModeKey, SslDisable)
                else Field(DbNameKey, p.DB) + " " + Field(SslModeKey, SslDisable);
    Field(HostKey, host) + " " + (Field(PortKey, Decimal(port)) + " " + (Field(UserKey, p.User) + " "
      + (Field(PasswordKey, p.Pass) + " " + tail)))
  }

  datatype Address = Address(host: string, port: int)

  /**
   * The host and port the PostgreSQL driver is pointed at: the loopback
   * forwarder when one is running for an SSH PostgreSQL connection, the
   * configured `Host:Port` otherwise. `forwarder` is the port the OS gave the
   * listener, if a listener exists.
   */
  function EffectiveAddress(p: ConnParams, forwarder: Option<int>): (a: Address)
    ensures a == Address(Loopback, forwarder.value)
            <== p.UseSSH && p.DBType == "postgres" && forwarder.Some?
    ensures a == Address(p.Host, p.Port)
            <== !(p.UseSSH && p.DBType == "postgres" && forwarder.Some?)
  {
    if p.UseSSH && p.DBType == "postgres" && forwarder.Some? then Address(Loopback, forwarder.value)
    else Address(p.Host, p.Port)
  }

  datatype DriverConfig = DriverConfig(driver: string, dsn: string)

  /** The driver name and connection string handed to sql.Open. */
  function DriverFor(p: ConnParams, forwarder: Option<int>): DriverConfig
  {
    if p.DBType == "mysql" then DriverConfig("mysql", MySqlDsn(p))
    else
      var a := EffectiveAddress(p, forwarder);
      DriverConfig("postgres", PostgresDsn(a.host, a.port, p))
  }

  /**
   * Driver "mysql" exactly for DBType "mysql", with the go-sql-driver DSN;
   * "postgres" for every other value, with the key/value string against the
   * effective address.
   */
  lemma DriverChoice(p: ConnParams, forwarder: Option<int>)
    ensures var c := DriverFor(p, forwarder);
            && (c.driver == "mysql" <==> p.DBType == "mysql")
            && (c.driver == "postgres" <==> p.DBType != "mysql")
            && (p.DBType == "mysql" ==> c.dsn == MySqlDsn(p))
            && (p.DBType != "mysql" ==>
                  c.dsn == PostgresDsn(EffectiveAddress(p, forwarder).host, EffectiveAddress(p, forwarder).port, p))
  {
  }

  // ---------------------------------------------------------------------------
  // Readers: how the two drivers take the strings apart

  /** The fields a MySQL DSN names, in the driver's terms. */
  datatype MySqlFields = MySqlFields(user: string, passwd: string, net: string, addr: string,
                                     dbName: string, params: string)

  /** The credentials before the '@': the user up to the first ':', the password after it. */
  function ReadUserInfo(userinfo: string): (r: (string, string))
  {
    match FirstIndex(userinfo, ':')
    case None => (userinfo, "")
    case Some(k) => (userinfo[..k], userinfo[k + 1..])
  }

  /** `net(addr)`: the network up to the first '(', the address up to the closing ')'. */
  function ReadNetAddr(netaddr: string): (r: Option<(string, string)>)
  {
    match FirstIndex(netaddr, '(')
    case None => None
    case Some(k) =>
      if k + 1 < |netaddr| && netaddr[|netaddr| - 1] == ')' then Some((netaddr[..k], netaddr[k + 1..|netaddr| - 1]))
      else None
  }

  /** `db?params`: the database up to the first '?', the parameters after it. */
  function ReadDbParams(right: string): (r: (string, string))
  {
    match FirstIndex(right, '?')
    case None => (right, "")
    case Some(q) => (right[..q], right[q + 1..])
  }

  /**
   * Reading a MySQL DSN by go-sql-driver's layout: split at the last '/',
   * the part before it at its last '@', then the credentials, the network
   * and address, and the database and parameters as above. The database
   * name is taken verbatim; driver releases that unescape it as a URL path
   * read a name holding '%' differently.
   */
  function ReadMySqlDsn(dsn: string): (r: Option<MySqlFields>)
  {
    match LastIndex(dsn, '/')
    case None => None
    case Some(i) =>
      var left := dsn[..i];
      match LastIndex(left, '@')
      case None => None
      case Some(j) =>
        var cred := ReadUserInfo(left[..j]);
        var dbp := ReadDbParams(dsn[i + 1..]);
        match ReadNetAddr(left[j + 1..])
        case None => None
        case Some(na) => Some(MySqlFields(cred.0, cred.1, na.0, na.1, dbp.0, dbp.1))
  }

  /**
   * Go's net.SplitHostPort: the port follows the last ':'. A host in
   * brackets must close right before that ':'; a host without brackets may
   * hold no ':' (too many colons); a stray '[' or ']' is refused.
   */
  function SplitHostPort(addr: string): (r: Option<(string, string)>)
    ensures r.Some? ==> ':' !in r.value.1
    ensures r.Some? ==> addr == r.value.0 + ":" + r.value.1 || addr == "[" + r.value.0 + "]:" + r.value.1
  {
    match LastIndex(addr, ':')
    case None => None
    case Some(i) =>
      if addr[0] == '[' then
        match FirstIndex(addr, ']')
        case None => None
        case Some(end) =>
          if end + 1 != i || '[' in addr[1..] || ']' in addr[end + 1..] then None
          else
            assert addr == "[" + addr[1..end] + "]:" + addr[i + 1..];
            Some((addr[1..end], addr[i + 1..]))
      else if ':' in addr[..i] || '[' in addr || ']' in addr then None
      else
        assert addr == addr[..i] + ":" + addr[i + 1..];
        Some((addr[..i], addr[i + 1..]))
  }

  /**
   * Fields the MySQL DSN can carry unambiguously. The connection code
   * escapes nothing and accepts the other values too, writing a DSN that
   * reads back split at the wrong separator.
   */
  predicate MySqlReadable(p: ConnParams) {
    ':' !in p.User && '@' !in p.Host && '/' !in p.DB && '?' !in p.DB
  }

  lemma ReadUserInfoOf(user: string, pass: string)
    requires ':' !in user
    ensures ReadUserInfo(user + ":" + pass) == (user, pass)
  {
    FirstIndexAt(user, ':', pass);
    var ui := user + ":" + pass;
    assert ui[..|user|] == user && ui[|user| + 1..] == pass;
  }

  lemma ReadNetAddrOf(net: string, addr: string)
    requires '(' !in net
    ensures ReadNetAddr(net + "(" + addr + ")") == Some((net, addr))
  {
    var na := net + "(" + addr + ")";
    assert na == net + "(" + (addr + ")");
    FirstIndexAt(net, '(', addr + ")");
    assert na[..|net|] == net && na[|net| + 1..|na| - 1] == addr;
  }

  lemma ReadDbParamsOf(db: string, params: string)
    requires '?' !in db
    ensures ReadDbParams(db + "?" + params) == (db, params)
  {
    FirstIndexAt(db, '?', params);
    var right := db + "?" + params;
    assert right[..|db|] == db && right[|db| + 1..] == params;
  }

  /** The reader inverts the DSN layout whenever the separators it splits at are unambiguous. */
  lemma ReadMySqlDsnOf(user: string, pass: string, net: string, addr: string, db: string, params: string)
    requires ':' !in user && '(' !in net && '@' !in net && '@' !in addr
    requires '/' !in db && '?' !in db && '/' !in params
    ensures ReadMySqlDsn((user + ":" + pass) + "@" + (net + "(" + addr + ")") + "/" + (db + "?" + params))
            == Some(MySqlFields(user, pass, net, addr, db, params))
  {
    var ui := user + ":" + pass;
    var na := net + "(" + addr + ")";
    var left := ui + "@" + na;
    var right := db + "?" + params;
    var dsn := left + "/" + right;
    assert '/' !in right by {
      assert right == db + ['?'] + params;
    }
    LastIndexAt(left, '/', right);
    assert dsn[..|left|] == left;
    assert dsn[|left| + 1..] == right;
    assert '@' !in na by {
      assert na == net + ['('] + addr + [')'];
    }
    LastIndexAt(ui, '@', na);
    assert left[..|ui|] == ui;
    assert left[|ui| + 1..] == na;
    ReadUserInfoOf(user, pass);
    ReadNetAddrOf(net, addr);
    ReadDbParamsOf(db, params);
  }

  /** Both branches of the MySQL format share one layout; the empty database leaves `/?` behind. */
  lemma MySqlDsnLayout(p: ConnParams)
    ensures MySqlDsn(p)
            == (p.User + ":" + p.Pass) + "@" + (Protocol(p.UseSSH) + "(" + (p.Host + ":" + Decimal(p.Port)) + ")")
               + "/" + (p.DB + "?" + MySqlParams)
  {
    assert p.DB + "?" + MySqlParams == p.DB + MySqlQuery;
    if p.DB == "" {
      assert p.DB + MySqlQuery == MySqlQuery;
    }
  }

  /**
   * The MySQL DSN reads back as the user, password, network, `Host:Port`,
   * database and the fixed parameters it was built from; with an empty `DB`
   * the database segment is empty.
   */
  lemma ReadMySqlDsnRoundTrip(p: ConnParams)
    requires MySqlReadable(p)
    ensures ReadMySqlDsn(MySqlDsn(p))
            == Some(MySqlFields(p.User, p.Pass, Protocol(p.UseSSH), p.Host + ":" + Decimal(p.Port), p.DB,
                                MySqlParams))
    ensures ':' !in p.Host && '[' !in p.Host && ']' !in p.Host ==>
              SplitHostPort(p.Host + ":" + Decimal(p.Port)) == Some((p.Host, Decimal(p.Port)))
  {
    HostPortNoAt(p.Host, p.Port);
    MySqlWordsPlain(p.UseSSH);
    MySqlDsnLayout(p);
    ReadMySqlDsnOf(p.User, p.Pass, Protocol(p.UseSSH), p.Host + ":" + Decimal(p.Port), p.DB, MySqlParams);
    if ':' !in p.Host && '[' !in p.Host && ']' !in p.Host {
      SplitHostPortOf(p.Host, p.Port);
    }
  }

  /**
   * A user name holding ':' is written as is, and the driver splits the
   * credentials at that colon: the user is cut short and the rest of the
   * name joins the password.
   */
  lemma ColonUserMisread(u1: string, u2: string, pass: string)
    requires ':' !in u1
    ensures ReadUserInfo((u1 + ":" + u2) + ":" + pass) == (u1, u2 + ":" + pass)
  {
    assert (u1 + ":" + u2) + ":" + pass == u1 + ":" + (u2 + ":" + pass);
    ReadUserInfoOf(u1, u2 + ":" + pass);
  }

  /** The protocol names and the fixed parameters hold none of the separators the reader splits at. */
  lemma MySqlWordsPlain(useSSH: bool)
    ensures '@' !in Protocol(useSSH) && '(' !in Protocol(useSSH) && '/' !in MySqlParams
  {
  }

  lemma HostPortNoAt(host: string, port: int)
    requires '@' !in host
    ensures '@' !in host + ":" + Decimal(port)
  {
    NoSeparatorInDecimal(port, '@');
    assert host + ":" + Decimal(port) == host + [':'] + Decimal(port);
  }

  /** A bare host name with no colon or bracket splits back from `Host:Port`, since `%d` writes no colon. */
  lemma SplitHostPortOf(host: string, port: int)
    requires ':' !in host && '[' !in host && ']' !in host
    ensures SplitHostPort(host + ":" + Decimal(port)) == Some((host, Decimal(port)))
  {
    var d := Decimal(port);
    var addr := host + ":" + d;
    NoSeparatorInDecimal(port, ':');
    NoSeparatorInDecimal(port, '[');
    NoSeparatorInDecimal(port, ']');
    LastIndexAt(host, ':', d);
    assert addr[..|host|] == host && addr[|host| + 1..] == d;
    assert addr == host + [':'] + d;
    if host != [] {
      assert addr[0] == host[0];
    }
  }

  /**
   * A host holding a colon, as an IPv6 literal does, is written without
   * brackets, and `Host:Port` no longer splits: too many colons.
   */
  lemma SplitHostPortColonHost(host: string, port: int)
    requires ':' in host && (host == [] || host[0] != '[')
    ensures SplitHostPort(host + ":" + Decimal(port)) == None
  {
    var d := Decimal(port);
    var addr := host + ":" + d;
    NoSeparatorInDecimal(port, ':');
    LastIndexAt(host, ':', d);
    assert addr[..|host|] == host;
    assert addr == host + [':'] + d;
    assert addr[0] == host[0];
  }

  // lib/pq's reader of key/value connection strings (its parseOpts): keys
  // run up to white space or '='; white space may surround the '='; a value
  // is either quoted with single quotes or runs up to the next white space,
  // and a backslash takes the next character literally in both forms; a key
  // whose '=' ends the text gets the empty value. Each function takes the
  // text still to be read and returns what it read with the text after it.

  function SkipSpaces(s: string): (r: string)
    ensures |r| <= |s|
    ensures r == [] || !IsSpace(r[0])
  {
    if s != [] && IsSpace(s[0]) then SkipSpaces(s[1..]) else s
  }

  /** The key: the longest prefix holding no white space and no '='. */
  function ScanKey(s: string): (r: (string, string))
    ensures |r.1| <= |s|
  {
    if s == [] || IsSpace(s[0]) || s[0] == '=' then ([], s)
    else
      var (k, rest) := ScanKey(s[1..]);
      ([s[0]] + k, rest)
  }

  /** An unquoted value: up to the next white space, with backslash escapes. */
  function ReadUnquoted(s: string): (r: Result<(string, string), string>)
    ensures r.Ok? ==> |r.value.1| <= |s|
  {
    if s == [] || IsSpace(s[0]) then Ok(([], s))
    else if s[0] == '\\' then
      if |s| == 1 then Err(MissingEscapedMessage)
      else match ReadUnquoted(s[2..])
        case Err(e) => Err(e)
        case Ok((v, rest)) => Ok(([s[1]] + v, rest))
    else match ReadUnquoted(s[1..])
      case Err(e) => Err(e)
      case Ok((v, rest)) => Ok(([s[0]] + v, rest))
  }

  /** A quoted value, read after its opening quote: up to the closing quote, with backslash escapes. */
  function ReadQuoted(s: string): (r: Result<(string, string), string>)
    ensures r.Ok? ==> |r.value.1| < |s|
  {
    if s == [] || (s[0] == '\\' && |s| == 1) then Err(UnterminatedMessage)
    else if s[0] == '\'' then Ok(([], s[1..]))
    else
      var (c, tail) := if s[0] == '\\' then (s[1], s[2..]) else (s[0], s[1..]);
      match ReadQuoted(tail)
      case Err(e) => Err(e)
      case Ok((v, rest)) => Ok(([c] + v, rest))
  }

  const MissingEscapedMessage: string := "missing character after backslash"
  const UnterminatedMessage: string := "unterminated quoted string literal in connection string"

  function MissingEqualsMessage(key: string): string {
    "missing \"=\" after \"" + key + "\" in connection info string"
  }

  /** `kv` in front of what the rest of the text reads as, or that text's error. */
  function Prepend(kv: (string, string), r: Result<seq<(string, string)>, string>): Result<seq<(string, string)>, string> {
    match r
    case Ok(kvs) => Ok([kv] + kvs)
    case Err(e) => Err(e)
  }

  /**
   * One `key=value` pair at the start of `t` (which opens with no white
   * space), with the text after it; a key whose '=' ends the text gets the
   * empty value.
   */
  function ReadPair(t: string): (r: Result<((string, string), string), string>)
    requires t != []
    ensures r.Ok? ==> |r.value.1| < |t|
  {
    var (key, afterKey) := ScanKey(t);
    var atEq := SkipSpaces(afterKey);
    if atEq == [] || atEq[0] != '=' then Err(MissingEqualsMessage(key))
    else ReadValue(key, atEq[1..])
  }

  /** The value after the '=' of `key`: quoted, unquoted, or empty at the end of the text. */
  function ReadValue(key: string, s: string): (r: Result<((string, string), string), string>)
    ensures r.Ok? ==> |r.value.1| <= |s|
  {
    var v := SkipSpaces(s);
    if v == [] then Ok(((key, []), []))
    else
      var value := if v[0] == '\'' then ReadQuoted(v[1..]) else ReadUnquoted(v);
      match value
      case Err(e) => Err(e)
      case Ok((val, rest)) => Ok(((key, val), rest))
  }

  /** The key/value pairs of a connection string, in the order written. */
  function ReadKeyValues(s: string): (r: Result<seq<(string, string)>, string>)
    decreases |s|
  {
    var t := SkipSpaces(s);
    if t == [] then Ok([])
    else match ReadPair(t)
      case Err(e) => Err(e)
      case Ok((kv, rest)) => Prepend(kv, ReadKeyValues(rest))
  }

  /**
   * The options the string's pairs set, a later key overriding an earlier
   * one; lib/pq's seeded defaults and PG* environment variables are not
   * part of this model.
   */
  function Options(kvs: seq<(string, string)>): (m: map<string, string>)
    ensures forall k :: k in m <==> exists i :: 0 <= i < |kvs| && kvs[i].0 == k
  {
    if kvs == [] then map[]
    else
      var m := Options(kvs[..|kvs| - 1]);
      assert forall i :: 0 <= i < |kvs| - 1 ==> kvs[..|kvs| - 1][i] == kvs[i];
      m[kvs[|kvs| - 1].0 := kvs[|kvs| - 1].1]
  }

  /** lib/pq's TLS mode from the options: an absent or empty sslmode means "require". */
  function SslMode(opts: map<string, string>): string {
    if SslModeKey in opts && opts[SslModeKey] != "" then opts[SslModeKey] else "require"
  }

  /** One `key=value` token. */
  function Field(k: string, v: string): string {
    k + "=" + v
  }

  /** Writing `key=value` tokens separated by single spaces. */
  function JoinKeyValues(kvs: seq<(string, string)>): (s: string)
    requires |kvs| >= 1
  {
    if |kvs| == 1 then Field(kvs[0].0, kvs[0].1)
    else Field(kvs[0].0, kvs[0].1) + " " + JoinKeyValues(kvs[1..])
  }

  /**
   * A value lib/pq reads back verbatim from an unquoted token: non-empty, no
   * white space, no backslash, not opening with a quote.
   */
  predicate PlainValue(v: string) {
    v != [] && v[0] != '\'' && forall i :: 0 <= i < |v| ==> !IsSpace(v[i]) && v[i] != '\\'
  }

  /** A key lib/pq reads back verbatim: as a plain value, and without '='. */
  predicate PlainKey(k: string) {
    PlainValue(k) && forall i :: 0 <= i < |k| ==> k[i] != '='
  }

  lemma {:induction false} ScanKeyOf(k: string, rest: string)
    requires forall i :: 0 <= i < |k| ==> !IsSpace(k[i]) && k[i] != '='
    requires rest == [] || IsSpace(rest[0]) || rest[0] == '='
    ensures ScanKey(k + rest) == (k, rest)
  {
    if k == [] {
      assert k + rest == rest;
    } else {
      var s := k + rest;
      assert s[0] == k[0] && s[1..] == k[1..] + rest;
      ScanKeyOf(k[1..], rest);
      assert ScanKey(s) == ([s[0]] + k[1..], rest);
      assert [k[0]] + k[1..] == k;
    }
  }

  lemma {:induction false} ReadUnquotedOf(v: string, rest: string)
    requires forall i :: 0 <= i < |v| ==> !IsSpace(v[i]) && v[i] != '\\'
    requires rest == [] || IsSpace(rest[0])
    ensures ReadUnquoted(v + rest) == Ok((v, rest))
  {
    if v == [] {
      assert v + rest == rest;
    } else {
      var s := v + rest;
      assert s[0] == v[0] && s[1..] == v[1..] + rest;
      ReadUnquotedOf(v[1..], rest);
      assert ReadUnquoted(s) == Ok(([s[0]] + v[1..], rest));
      assert [v[0]] + v[1..] == v;
    }
  }

  /** White space in front of the text changes nothing read. */
  lemma LeadingSpace(s: string)
    ensures ReadKeyValues(" " + s) == ReadKeyValues(s)
  {
    assert (" " + s)[0] == ' ' && (" " + s)[1..] == s;
    assert SkipSpaces(" " + s) == SkipSpaces(s);
  }

  /** Text that opens with a pair reads as that pair, then whatever follows it reads as. */
  lemma ReadKeyValuesPair(t: string)
    requires t != [] && !IsSpace(t[0]) && ReadPair(t).Ok?
    ensures ReadKeyValues(t) == Prepend(ReadPair(t).value.0, ReadKeyValues(ReadPair(t).value.1))
  {
    assert SkipSpaces(t) == t;
  }

  /** A token `key=value` whose value opens with no blank or quote reads as that pair. */
  lemma ReadPairOf(k: string, w: string, rest: string)
    requires PlainKey(k)
    requires w != [] && !IsSpace(w[0]) && w[0] != '\''
    requires forall i :: 0 <= i < |w| ==> !IsSpace(w[i]) && w[i] != '\\'
    requires rest == [] || IsSpace(rest[0])
    ensures k + "=" + w + rest != []
    ensures ReadPair(k + "=" + w + rest) == Ok(((k, w), rest))
  {
    var afterKey := "=" + w + rest;
    assert k + "=" + w + rest == k + afterKey;
    ScanKeyOf(k, afterKey);
    assert afterKey[0] == '=' && afterKey[1..] == w + rest;
    assert SkipSpaces(afterKey) == afterKey;
    assert (w + rest)[0] == w[0];
    assert SkipSpaces(w + rest) == w + rest;
    ReadUnquotedOf(w, rest);
  }

  /** A plain `key=value` token followed by white space or the end reads as that pair. */
  lemma ReadToken(k: string, v: string, rest: string)
    requires PlainKey(k) && PlainValue(v)
    requires rest == [] || IsSpace(rest[0])
    ensures ReadKeyValues(Field(k, v) + rest) == Prepend((k, v), ReadKeyValues(rest))
  {
    ReadPairOf(k, v, rest);
    var t := Field(k, v) + rest;
    assert t == k + "=" + v + rest;
    assert t[0] == k[0];
    ReadKeyValuesPair(t);
  }

  /** A plain `key=value` token alone reads as that one pair. */
  lemma ReadTokenEnd(k: string, v: string)
    requires PlainKey(k) && PlainValue(v)
    ensures ReadKeyValues(Field(k, v)) == Ok([(k, v)])
  {
    var t := Field(k, v);
    ReadPairOf(k, v, []);
    assert k + "=" + v + [] == t;
    assert t[0] == k[0];
    assert ReadPair(t) == Ok(((k, v), []));
    ReadKeyValuesPair(t);
    assert ReadKeyValues([]) == Ok([]);
    assert [(k, v)] + [] == [(k, v)];
  }

  /** A plain token, a blank and the rest: the pair, then whatever the rest reads as. */
  lemma ReadTokenThen(k: string, v: string, rest: string)
    requires PlainKey(k) && PlainValue(v)
    ensures ReadKeyValues(Field(k, v) + " " + rest) == Prepend((k, v), ReadKeyValues(rest))
  {
    assert Field(k, v) + " " + rest == Field(k, v) + (" " + rest);
    assert (" " + rest)[0] == ' ';
    ReadToken(k, v, " " + rest);
    LeadingSpace(rest);
  }

  lemma {:induction false} ReadJoinKeyValues(kvs: seq<(string, string)>)
    requires |kvs| >= 1
    requires AllPlain(kvs)
    ensures ReadKeyValues(JoinKeyValues(kvs)) == Ok(kvs)
  {
    var k, v := kvs[0].0, kvs[0].1;
    if |kvs| == 1 {
      ReadTokenEnd(k, v);
      assert kvs == [(k, v)];
    } else {
      var more := kvs[1..];
      assert AllPlain(more) by {
        forall i | 0 <= i < |more| ensures PlainKey(more[i].0) && PlainValue(more[i].1) {
          assert more[i] == kvs[i + 1];
        }
      }
      var text := JoinKeyValues(more);
      assert JoinKeyValues(kvs) == Field(k, v) + " " + text;
      ReadTokenThen(k, v, text);
      ReadJoinKeyValues(more);
      assert kvs == [(k, v)] + more;
      assert ReadKeyValues(Field(k, v) + " " + text) == Ok(kvs);
    }
  }

  /** After a plain key and its '=', the pair is whatever the value reader makes of the rest. */
  lemma ReadPairAtEquals(k: string, s: string)
    requires PlainKey(k)
    ensures k + "=" + s != []
    ensures ReadPair(k + "=" + s) == ReadValue(k, s)
  {
    var afterKey := "=" + s;
    assert k + "=" + s == k + afterKey;
    ScanKeyOf(k, afterKey);
    assert afterKey[0] == '=' && afterKey[1..] == s;
    assert SkipSpaces(afterKey) == afterKey;
  }

  /** The value reader skips a blank after the '='. */
  lemma ReadValueBlank(k: string, s: string)
    ensures ReadValue(k, " " + s) == ReadValue(k, s)
  {
    assert (" " + s)[0] == ' ' && (" " + s)[1..] == s;
    assert SkipSpaces(" " + s) == SkipSpaces(s);
  }

  /** A plain value followed by white space or the end is read whole. */
  lemma ReadValueOf(k: string, w: string, rest: string)
    requires PlainValue(w)
    requires rest == [] || IsSpace(rest[0])
    ensures ReadValue(k, w + rest) == Ok(((k, w), rest))
  {
    assert (w + rest)[0] == w[0];
    assert SkipSpaces(w + rest) == w + rest;
    ReadUnquotedOf(w, rest);
  }

  /** A plain `key=value` token is itself a plain value. */
  lemma FieldPlain(k: string, v: string)
    requires PlainKey(k) && PlainValue(v)
    ensures PlainValue(Field(k, v))
  {
    var w := Field(k, v);
    assert w[0] == k[0];
    forall i | 0 <= i < |w| ensures !IsSpace(w[i]) && w[i] != '\\' {
      if i < |k| { assert w[i] == k[i]; }
      else if i > |k| { assert w[i] == v[i - |k| - 1]; }
    }
  }

  /**
   * A key whose value is empty, written as `key=` and a blank: lib/pq skips
   * the blank and takes the whole next token, `=` included, as the value.
   */
  lemma EmptyValueTakesNext(k: string, k2: string, v2: string, rest: string)
    requires PlainKey(k) && PlainKey(k2) && PlainValue(v2)
    requires rest == [] || IsSpace(rest[0])
    ensures ReadKeyValues(Field(k, "") + " " + (Field(k2, v2) + rest))
            == Prepend((k, Field(k2, v2)), ReadKeyValues(rest))
  {
    var w := Field(k2, v2);
    var t := Field(k, "") + " " + (w + rest);
    assert t == k + "=" + (" " + (w + rest));
    assert t[0] == k[0];
    FieldPlain(k2, v2);
    ReadPairAtEquals(k, " " + (w + rest));
    ReadValueBlank(k, w + rest);
    ReadValueOf(k, w, rest);
    ReadKeyValuesPair(t);
  }

  /** The fields the PostgreSQL connection string carries, in order; `dbname` only for a non-empty `DB`. */
  function PostgresFields(host: string, port: int, p: ConnParams): seq<(string, string)>
  {
    [(HostKey, host), (PortKey, Decimal(port)), (UserKey, p.User), (PasswordKey, p.Pass)]
    + (if p.DB == "" then [] else [(DbNameKey, p.DB)])
    + [(SslModeKey, SslDisable)]
  }

  /** The database field is written exactly when `DB` is non-empty. */
  lemma PostgresFieldsDbName(host: string, port: int, p: ConnParams)
    ensures p.DB == "" <==> forall i :: 0 <= i < |PostgresFields(host, port, p)| ==> PostgresFields(host, port, p)[i].0 != DbNameKey
  {
    var kvs := PostgresFields(host, port, p);
    if p.DB != "" {
      assert kvs[4].0 == DbNameKey;
    }
  }

  lemma JoinKeyValuesCons(k: string, v: string, rest: seq<(string, string)>)
    requires |rest| >= 1
    ensures JoinKeyValues([(k, v)] + rest) == Field(k, v) + " " + JoinKeyValues(rest)
  {
    assert ([(k, v)] + rest)[1..] == rest;
  }

  /** Four fields in front of a written tail, as right-nested text. */
  lemma JoinFourThen(k0: string, v0: string, k1: string, v1: string, k2: string, v2: string,
                     k3: string, v3: string, tail: seq<(string, string)>, tailText: string)
    requires |tail| >= 1 && JoinKeyValues(tail) == tailText
    ensures JoinKeyValues([(k0, v0)] + ([(k1, v1)] + ([(k2, v2)] + ([(k3, v3)] + tail))))
            == Field(k0, v0) + " " + (Field(k1, v1) + " " + (Field(k2, v2) + " " + (Field(k3, v3) + " " + tailText)))
  {
    var j3 := [(k3, v3)] + tail;
    var j2 := [(k2, v2)] + j3;
    var j1 := [(k1, v1)] + j2;
    var t3 := Field(k3, v3) + " " + tailText;
    var t2 := Field(k2, v2) + " " + t3;
    var t1 := Field(k1, v1) + " " + t2;
    assert JoinKeyValues(j3) == t3 by { JoinKeyValuesCons(k3, v3, tail); }
    assert JoinKeyValues(j2) == t2 by { JoinKeyValuesCons(k2, v2, j3); }
    assert JoinKeyValues(j1) == t1 by { JoinKeyValuesCons(k1, v1, j2); }
    JoinKeyValuesCons(k0, v0, j1);
  }

  /** The PostgreSQL connection string is its fields written as `key=value` tokens. */
  lemma PostgresDsnLayout(host: string, port: int, p: ConnParams)
    ensures PostgresDsn(host, port, p) == JoinKeyValues(PostgresFields(host, port, p))
  {
    var d := Decimal(port);
    var tail := (if p.DB == "" then [] else [(DbNameKey, p.DB)]) + [(SslModeKey, SslDisable)];
    var tailText := if p.DB == "" then Field(SslModeKey, SslDisable)
                    else Field(DbNameKey, p.DB) + " " + Field(SslModeKey, SslDisable);
    assert JoinKeyValues(tail) == tailText by {
      if p.DB != "" {
        JoinKeyValuesCons(DbNameKey, p.DB, [(SslModeKey, SslDisable)]);
      }
    }
    var fields := [(HostKey, host)] + ([(PortKey, d)] + ([(UserKey, p.User)] + ([(PasswordKey, p.Pass)] + tail)));
    assert PostgresFields(host, port, p) == fields;
    JoinFourThen(HostKey, host, PortKey, d, UserKey, p.User, PasswordKey, p.Pass, tail, tailText);
  }

  /** Every key and value in `kvs` survives the reader unchanged. */
  predicate AllPlain(kvs: seq<(string, string)>) {
    forall i :: 0 <= i < |kvs| ==> PlainKey(kvs[i].0) && PlainValue(kvs[i].1)
  }

  lemma AllPlainConcat(a: seq<(string, string)>, b: seq<(string, string)>)
    requires AllPlain(a) && AllPlain(b)
    ensures AllPlain(a + b)
  {
    forall i | 0 <= i < |a + b| ensures PlainKey((a + b)[i].0) && PlainValue((a + b)[i].1) {
      if i < |a| { assert (a + b)[i] == a[i]; } else { assert (a + b)[i] == b[i - |a|]; }
    }
  }

  lemma DecimalPlain(n: int)
    ensures PlainValue(Decimal(n))
  {
    var s := Decimal(n);
    forall i | 0 <= i < |s| ensures !IsSpace(s[i]) && s[i] != '\\' {
      assert s[i] == '-' || IsDigit(s[i]);
    }
  }

  lemma AllPlainCons(k: string, v: string, rest: seq<(string, string)>)
    requires PlainKey(k) && PlainValue(v) && AllPlain(rest)
    ensures AllPlain([(k, v)] + rest)
  {
    var kvs := [(k, v)] + rest;
    forall i | 0 <= i < |kvs| ensures PlainKey(kvs[i].0) && PlainValue(kvs[i].1) {
      if i > 0 { assert kvs[i] == rest[i - 1]; }
    }
  }

  /** Every key of the PostgreSQL string, and the value `disable`, survives the reader. */
  lemma PostgresWordsPlain()
    ensures PlainKey(HostKey) && PlainKey(PortKey) && PlainKey(UserKey) && PlainKey(PasswordKey)
    ensures PlainKey(DbNameKey) && PlainKey(SslModeKey) && PlainValue(SslDisable)
  {
  }

  lemma PostgresFieldsPlain(host: string, port: int, p: ConnParams)
    requires PlainValue(host) && PlainValue(p.User) && PlainValue(p.Pass)
    requires p.DB == "" || PlainValue(p.DB)
    ensures AllPlain(PostgresFields(host, port, p))
  {
    DecimalPlain(port);
    PostgresWordsPlain();
    var d := Decimal(port);
    var last := [(SslModeKey, SslDisable)];
    assert AllPlain(last) by {
      AllPlainCons(SslModeKey, SslDisable, []);
      assert last == [(SslModeKey, SslDisable)] + [];
    }
    var tail := (if p.DB == "" then [] else [(DbNameKey, p.DB)]) + last;
    assert AllPlain(tail) by {
      if p.DB != "" {
        AllPlainCons(DbNameKey, p.DB, last);
      } else {
        assert tail == last;
      }
    }
    var t3 := [(PasswordKey, p.Pass)] + tail;
    var t2 := [(UserKey, p.User)] + t3;
    var t1 := [(PortKey, d)] + t2;
    AllPlainCons(PasswordKey, p.Pass, tail);
    AllPlainCons(UserKey, p.User, t3);
    AllPlainCons(PortKey, d, t2);
    AllPlainCons(HostKey, host, t1);
    assert PostgresFields(host, port, p) == [(HostKey, host)] + t1;
  }

  /**
   * The PostgreSQL string reads back, under lib/pq's reader, as host, port,
   * user, password, the database only when `DB` is non-empty, and
   * `sslmode=disable`, which is the TLS mode the driver then uses. This needs
   * every value to be non-empty and free of white space and backslashes.
   */
  lemma ReadPostgresDsnRoundTrip(host: string, port: int, p: ConnParams)
    requires PlainValue(host) && PlainValue(p.User) && PlainValue(p.Pass)
    requires p.DB == "" || PlainValue(p.DB)
    ensures ReadKeyValues(PostgresDsn(host, port, p)) == Ok(PostgresFields(host, port, p))
    ensures SslMode(Options(PostgresFields(host, port, p))) == SslDisable
  {
    PostgresFieldsPlain(host, port, p);
    PostgresDsnLayout(host, port, p);
    ReadJoinKeyValues(PostgresFields(host, port, p));
    var f := PostgresFields(host, port, p);
    assert f[|f| - 1] == (SslModeKey, SslDisable);
  }

  /** A plain first pair of a written list reads back, then the rest of the list. */
  lemma ReadJoinCons(kvs: seq<(string, string)>)
    requires |kvs| >= 2 && PlainKey(kvs[0].0) && PlainValue(kvs[0].1)
    ensures ReadKeyValues(JoinKeyValues(kvs)) == Prepend(kvs[0], ReadKeyValues(JoinKeyValues(kvs[1..])))
  {
    assert JoinKeyValues(kvs) == Field(kvs[0].0, kvs[0].1) + " " + JoinKeyValues(kvs[1..]);
    ReadTokenThen(kvs[0].0, kvs[0].1, JoinKeyValues(kvs[1..]));
  }

  /** The pairs `a` in front of what the rest of the text reads as, or that text's error. */
  function PrependAll(a: seq<(string, string)>, r: Result<seq<(string, string)>, string>): Result<seq<(string, string)>, string> {
    match r
    case Ok(kvs) => Ok(a + kvs)
    case Err(e) => Err(e)
  }

  lemma PrependNothing(r: Result<seq<(string, string)>, string>)
    ensures PrependAll([], r) == r
  {
    match r {
      case Ok(x) => assert [] + x == x;
      case Err(_) =>
    }
  }

  /** Putting the first pair in front of what the others prepend is prepending them all. */
  lemma PrependFirst(a: seq<(string, string)>, r: Result<seq<(string, string)>, string>)
    requires |a| >= 1
    ensures Prepend(a[0], PrependAll(a[1..], r)) == PrependAll(a, r)
  {
    match r {
      case Ok(x) => assert [a[0]] + (a[1..] + x) == a + x;
      case Err(_) =>
    }
  }

  /** Plain pairs written in front of a list read back in front of whatever the list reads as. */
  lemma {:induction false} ReadJoinPrefix(a: seq<(string, string)>, b: seq<(string, string)>)
    requires |a| >= 1 && |b| >= 1 && AllPlain(a)
    ensures ReadKeyValues(JoinKeyValues(a + b)) == PrependAll(a, ReadKeyValues(JoinKeyValues(b)))
  {
    ReadJoinCons(a + b);
    assert (a + b)[0] == a[0];
    var r := ReadKeyValues(JoinKeyValues(b));
    var a' := a[1..];
    assert (a + b)[1..] == a' + b;
    if |a| == 1 {
      assert a' + b == b;
      PrependNothing(r);
    } else {
      assert AllPlain(a') by {
        forall i | 0 <= i < |a'| ensures PlainKey(a'[i].0) && PlainValue(a'[i].1) {
          assert a'[i] == a[i + 1];
        }
      }
      ReadJoinPrefix(a', b);
    }
    PrependFirst(a, r);
  }

  /** A first pair with an empty value takes the second token whole as its value. */
  lemma ReadJoinEmptyValue(kvs: seq<(string, string)>)
    requires |kvs| >= 2 && PlainKey(kvs[0].0) && kvs[0].1 == ""
    requires PlainKey(kvs[1].0) && PlainValue(kvs[1].1)
    ensures ReadKeyValues(JoinKeyValues(kvs))
            == Prepend((kvs[0].0, Field(kvs[1].0, kvs[1].1)),
                       if |kvs| == 2 then Ok([]) else ReadKeyValues(JoinKeyValues(kvs[2..])))
  {
    if |kvs| == 2 {
      ReadJoinEmptyValueLast(kvs);
    } else {
      ReadJoinEmptyValueThen(kvs);
    }
  }

  lemma ReadJoinEmptyValueLast(kvs: seq<(string, string)>)
    requires |kvs| == 2 && PlainKey(kvs[0].0) && kvs[0].1 == ""
    requires PlainKey(kvs[1].0) && PlainValue(kvs[1].1)
    ensures ReadKeyValues(JoinKeyValues(kvs)) == Prepend((kvs[0].0, Field(kvs[1].0, kvs[1].1)), Ok([]))
  {
    var k, k2, v2 := kvs[0].0, kvs[1].0, kvs[1].1;
    var w := Field(k2, v2);
    assert kvs[1..] == [(k2, v2)];
    assert JoinKeyValues(kvs[1..]) == w;
    assert w + [] == w;
    assert JoinKeyValues(kvs) == Field(k, "") + " " + (w + []);
    EmptyValueTakesNext(k, k2, v2, []);
    assert ReadKeyValues([]) == Ok([]);
  }

  lemma ReadJoinEmptyValueThen(kvs: seq<(string, string)>)
    requires |kvs| >= 3 && PlainKey(kvs[0].0) && kvs[0].1 == ""
    requires PlainKey(kvs[1].0) && PlainValue(kvs[1].1)
    ensures ReadKeyValues(JoinKeyValues(kvs))
            == Prepend((kvs[0].0, Field(kvs[1].0, kvs[1].1)), ReadKeyValues(JoinKeyValues(kvs[2..])))
  {
    JoinThirdOn(kvs);
    EmptyValueTakesNext(kvs[0].0, kvs[1].0, kvs[1].1, " " + JoinKeyValues(kvs[2..]));
    LeadingSpace(JoinKeyValues(kvs[2..]));
  }

  /** Three or more pairs written out: the first token, a blank, the second, a blank and the rest. */
  lemma JoinThirdOn(kvs: seq<(string, string)>)
    requires |kvs| >= 3
    ensures JoinKeyValues(kvs)
            == Field(kvs[0].0, kvs[0].1) + " " + (Field(kvs[1].0, kvs[1].1) + (" " + JoinKeyValues(kvs[2..])))
  {
    var more := kvs[1..];
    assert more[0] == kvs[1] && more[1..] == kvs[2..];
    var f1, rest := Field(kvs[1].0, kvs[1].1), JoinKeyValues(kvs[2..]);
    assert JoinKeyValues(more) == f1 + " " + rest;
    assert f1 + " " + rest == f1 + (" " + rest);
  }

  /** A key that no pair carries is absent from the options. */
  lemma OptionsLack(kvs: seq<(string, string)>, k: string)
    requires forall i :: 0 <= i < |kvs| ==> kvs[i].0 != k
    ensures k !in Options(kvs)
  {
  }

  /** Host, port and user, plain, as the connection string writes them first. */
  lemma PostgresFrontPlain(host: string, port: int, user: string)
    requires PlainValue(host) && PlainValue(user)
    ensures AllPlain([(HostKey, host), (PortKey, Decimal(port)), (UserKey, user)])
  {
    DecimalPlain(port);
    PostgresWordsPlain();
  }

  /**
   * An empty password, the login form's default, is written as `password=`
   * and a blank; without a database lib/pq takes `sslmode=disable` as the
   * password, and the string then names no TLS mode, so (without PGSSLMODE
   * and for a TCP host) lib/pq's default, require, applies.
   */
  lemma EmptyPasswordLosesSslMode(host: string, port: int, p: ConnParams)
    requires PlainValue(host) && PlainValue(p.User) && p.Pass == "" && p.DB == ""
    ensures var read := [(HostKey, host), (PortKey, Decimal(port)), (UserKey, p.User),
                         (PasswordKey, Field(SslModeKey, SslDisable))];
            && ReadKeyValues(PostgresDsn(host, port, p)) == Ok(read)
            && SslMode(Options(read)) == "require"
  {
    var a := [(HostKey, host), (PortKey, Decimal(port)), (UserKey, p.User)];
    var b := [(PasswordKey, ""), (SslModeKey, SslDisable)];
    var read := a + [(PasswordKey, Field(SslModeKey, SslDisable))];
    assert PostgresFields(host, port, p) == a + b;
    assert read == [(HostKey, host), (PortKey, Decimal(port)), (UserKey, p.User),
                    (PasswordKey, Field(SslModeKey, SslDisable))];
    var pw := (PasswordKey, Field(SslModeKey, SslDisable));
    assert [pw] + [] == [pw];
    assert SslModeKey != HostKey && SslModeKey != PortKey && SslModeKey != UserKey && SslModeKey != PasswordKey;
    OptionsLack(read, SslModeKey);
    PostgresWordsPlain();
    PostgresFrontPlain(host, port, p.User);
    PostgresDsnLayout(host, port, p);
    ReadJoinEmptyValue(b);
    assert ReadKeyValues(JoinKeyValues(b)) == Ok([(PasswordKey, Field(SslModeKey, SslDisable))]);
    ReadJoinPrefix(a, b);
    assert ReadKeyValues(JoinKeyValues(a + b)) == Ok(read);
  }

  /**
   * An empty password with a database: lib/pq takes `dbname=…` as the
   * password, and the database name is lost.
   */
  lemma EmptyPasswordLosesDbName(host: string, port: int, p: ConnParams)
    requires PlainValue(host) && PlainValue(p.User) && p.Pass == "" && PlainValue(p.DB)
    ensures var read := [(HostKey, host), (PortKey, Decimal(port)), (UserKey, p.User),
                         (PasswordKey, Field(DbNameKey, p.DB)), (SslModeKey, SslDisable)];
            && ReadKeyValues(PostgresDsn(host, port, p)) == Ok(read)
            && DbNameKey !in Options(read)
  {
    var a := [(HostKey, host), (PortKey, Decimal(port)), (UserKey, p.User)];
    var c := [(SslModeKey, SslDisable)];
    var b := [(PasswordKey, ""), (DbNameKey, p.DB)] + c;
    var read := a + ([(PasswordKey, Field(DbNameKey, p.DB))] + c);
    assert PostgresFields(host, port, p) == a + b;
    assert b[2..] == c;
    assert read == [(HostKey, host), (PortKey, Decimal(port)), (UserKey, p.User),
                    (PasswordKey, Field(DbNameKey, p.DB)), (SslModeKey, SslDisable)];
    OptionsLack(read, DbNameKey);
    PostgresWordsPlain();
    PostgresFrontPlain(host, port, p.User);
    PostgresDsnLayout(host, port, p);
    assert JoinKeyValues(c) == Field(SslModeKey, SslDisable);
    ReadTokenEnd(SslModeKey, SslDisable);
    ReadJoinEmptyValue(b);
    ReadJoinPrefix(a, b);
  }

  /**
   * An empty user is written as `user=` and a blank, and lib/pq takes the
   * password token as the user name: the password is lost.
   */
  lemma EmptyUserLosesPassword(host: string, port: int, p: ConnParams)
    requires PlainValue(host) && p.User == "" && PlainValue(p.Pass)
    requires p.DB == "" || PlainValue(p.DB)
    ensures var read := [(HostKey, host), (PortKey, Decimal(port)), (UserKey, Field(PasswordKey, p.Pass))]
                        + ((if p.DB == "" then [] else [(DbNameKey, p.DB)]) + [(SslModeKey, SslDisable)]);
            && ReadKeyValues(PostgresDsn(host, port, p)) == Ok(read)
            && PasswordKey !in Options(read)
  {
    var a := [(HostKey, host), (PortKey, Decimal(port))];
    var tail := (if p.DB == "" then [] else [(DbNameKey, p.DB)]) + [(SslModeKey, SslDisable)];
    var b := [(UserKey, ""), (PasswordKey, p.Pass)] + tail;
    var read := a + ([(UserKey, Field(PasswordKey, p.Pass))] + tail);
    assert PostgresFields(host, port, p) == a + b;
    assert b[2..] == tail;
    assert read == [(HostKey, host), (PortKey, Decimal(port)), (UserKey, Field(PasswordKey, p.Pass))]
                   + ((if p.DB == "" then [] else [(DbNameKey, p.DB)]) + [(SslModeKey, SslDisable)]);
    PostgresWordsPlain();
    assert PasswordKey != HostKey && PasswordKey != PortKey && PasswordKey != UserKey;
    assert PasswordKey != DbNameKey && PasswordKey != SslModeKey;
    OptionsLack(read, PasswordKey);
    DecimalPlain(port);
    assert AllPlain(a);
    assert AllPlain(tail) by {
      forall i | 0 <= i < |tail| ensures PlainKey(tail[i].0) && PlainValue(tail[i].1) {
      }
    }
    PostgresDsnLayout(host, port, p);
    ReadJoinKeyValues(tail);
    ReadJoinEmptyValue(b);
    ReadJoinPrefix(a, b);
  }

  // ---------------------------------------------------------------------------
  // The broker: package-level resolver state and the steps of Connect

  /**
   * What an SSH-protocol MySQL dial is routed to: the current tunnel's dialer
   * (which dials "tcp" to the address through the SSH session), or the direct
   * TCP dialer with its 5-second timeout.
   */
  datatype Route = ViaTunnel(tunnel: nat, addr: string) | DirectTcp(addr: string, timeoutSeconds: nat)

  /**
   * The resolver registered under "ssh": unknown to the driver until it has
   * been registered; afterwards it reads the dialer cell at dial time.
   */
  function Resolve(registered: bool, dialer: Option<nat>, addr: string): (r: Option<Route>)
  {
    if !registered then None
    else match dialer
      case Some(t) => Some(ViaTunnel(t, addr))
      case None => Some(DirectTcp(addr, DirectDialTimeoutSeconds))
  }

  /**
   * The outcomes of the calls Connect makes into code outside the model, in
   * the order it makes them: opening the SSH tunnel, binding the loopback
   * listener (the port the OS chose, or the error), sql.Open and the ping.
   * `None` means the call returned no error.
   */
  datatype Environment = Environment(
    tunnel: Option<string>,
    listener: Result<int, string>,
    open: Option<string>,
    ping: Option<string>)

  /**
   * What Connect does to the world, in order. Tunnels, listeners and database
   * handles are named by the broker's allocation counter.
   */
  datatype Effect =
    | OpenTunnel(tunnel: nat)
    | SetDialer(dialer: Option<nat>)
    | RegisterSsh
    | Listen(listener: nat, port: int)
    | StartForwarder(listener: nat)
    | SqlOpen(handle: nat, config: DriverConfig)
    | SetConnMaxLifetime(handle: nat, seconds: nat)
    | SetMaxOpenConns(handle: nat, n: nat)
    | SetMaxIdleConns(handle: nat, n: nat)
    | Ping(handle: nat, timeoutSeconds: nat)
    | CloseDb(handle: nat)
    | SignalDone(listener: nat)
    | CloseListener(listener: nat)
    | CloseTunnel(tunnel: nat)

  /**
   * The close handle Connect returns: a no-op without SSH, the SSH session's
   * closer for a MySQL tunnel, and for a PostgreSQL tunnel the composite that
   * also stops the forwarder.
   */
  datatype Closer = NoopCloser | TunnelCloser(tunnel: nat) | ForwardCloser(listener: nat, tunnel: nat)

  datatype Outcome = Connected(handle: nat, closer: Closer) | Failed(err: string)

  /** The effects of one Connect call, its result and the resolver state it leaves. */
  datatype Plan = Plan(effects: seq<Effect>, outcome: Outcome, dialer: Option<nat>, registered: bool)

  /** Tunnel, listener and handle names used by a Connect call that starts at counter `next`. */
  function TunnelName(next: nat): nat { next }
  function ListenerName(next: nat): nat { next + 1 }
  function HandleName(next: nat): nat { next + 2 }

  /** The pool limits and the ping issued on a freshly opened handle, in order. */
  function PoolSetup(h: nat): seq<Effect> {
    [SetConnMaxLifetime(h, ConnMaxLifetimeSeconds), SetMaxOpenConns(h, MaxOpenConns),
     SetMaxIdleConns(h, MaxIdleConns), Ping(h, PingTimeoutSeconds)]
  }

  /** From the driver choice on: open, configure, ping; a failed ping closes the handle. */
  function OpenAndPing(env: Environment, pre: seq<Effect>, cfg: DriverConfig, closer: Closer,
                       dialer: Option<nat>, registered: bool, next: nat): Plan
  {
    var h := HandleName(next);
    if env.open.Some? then Plan(pre, Failed(env.open.value), dialer, registered)
    else
      var live := pre + [SqlOpen(h, cfg)] + PoolSetup(h);
      if env.ping.Some? then Plan(live + [CloseDb(h)], Failed(env.ping.value), dialer, registered)
      else Plan(live, Connected(h, closer), dialer, registered)
  }

  /**
   * The second half of Connect, after the tunnel and the listener: open the
   * handle with the driver and string for the effective address, set the
   * pool limits, ping, and close the handle again when the ping fails.
   */
  method OpenSteps(env: Environment, pre: seq<Effect>, cfg: DriverConfig, closer: Closer,
                   dialer: Option<nat>, registered: bool, next: nat)
    returns (effects: seq<Effect>, r: Outcome)
    ensures var s := OpenAndPing(env, pre, cfg, closer, dialer, registered, next);
            effects == s.effects && r == s.outcome
  {
    var h := HandleName(next);
    if env.open.Some? {
      return pre, Failed(env.open.value);
    }
    effects := pre + [SqlOpen(h, cfg)] + PoolSetup(h);
    if env.ping.Some? {
      effects := effects + [CloseDb(h)];
      r := Failed(env.ping.value);
    } else {
      r := Connected(h, closer);
    }
  }

  /**
   * The steps of Connect given the external outcomes, the resolver state it
   * starts from and the allocation counter: the specification the `Broker`
   * method is proved against.
   */
  function ConnectPlan(p: ConnParams, env: Environment, dialer: Option<nat>, registered: bool, next: nat): Plan
  {
    if p.UseSSH then
      if env.tunnel.Some? then Plan([], Failed(env.tunnel.value), dialer, registered)
      else
        var t := TunnelName(next);
        var pre := [OpenTunnel(t), SetDialer(Some(t))] + (if registered then [] else [RegisterSsh]);
        if p.DBType == "postgres" then
          match env.listener
          case Err(e) => Plan(pre, Failed(e), Some(t), true)
          case Ok(port) =>
            var l := ListenerName(next);
            OpenAndPing(env, pre + [Listen(l, port), StartForwarder(l)], DriverFor(p, Some(port)),
                        ForwardCloser(l, t), Some(t), true, next)
        else OpenAndPing(env, pre, DriverFor(p, None), TunnelCloser(t), Some(t), true, next)
    else OpenAndPing(env, [SetDialer(None)], DriverFor(p, None), NoopCloser, None, registered, next)
  }

  /** How many times the "ssh" resolver was registered in a log. */
  function Registrations(log: seq<Effect>): nat
  {
    if log == [] then 0
    else (if log[0] == RegisterSsh then 1 else 0) + Registrations(log[1..])
  }

  lemma {:induction false} RegistrationsConcat(a: seq<Effect>, b: seq<Effect>)
    ensures Registrations(a + b) == Registrations(a) + Registrations(b)
  {
    if a == [] {
      assert a + b == b;
    } else {
      assert (a + b)[1..] == a[1..] + b;
      RegistrationsConcat(a[1..], b);
    }
  }

  lemma {:induction false} NoRegistrations(es: seq<Effect>)
    requires RegisterSsh !in es
    ensures Registrations(es) == 0
  {
    if es != [] {
      assert es[0] != RegisterSsh;
      assert RegisterSsh !in es[1..] by {
        forall i | 0 <= i < |es[1..]| ensures es[1..][i] != RegisterSsh {
          assert es[1..][i] == es[i + 1];
        }
      }
      NoRegistrations(es[1..]);
    }
  }

  lemma RegistrationsOne(e: Effect)
    ensures Registrations([e]) == if e == RegisterSsh then 1 else 0
  {
    assert [e][1..] == [];
  }

  /** Registrations in the effects that follow the resolver registration point. */
  lemma OpenAndPingRegistrations(env: Environment, pre: seq<Effect>, cfg: DriverConfig, closer: Closer,
                                 dialer: Option<nat>, registered: bool, next: nat)
    ensures Registrations(OpenAndPing(env, pre, cfg, closer, dialer, registered, next).effects)
            == Registrations(pre)
  {
    var h := HandleName(next);
    var tail := if env.open.Some? then []
                else [SqlOpen(h, cfg)] + PoolSetup(h)
                     + (if env.ping.Some? then [CloseDb(h)] else []);
    OpenAndPingEffects(env, pre, cfg, closer, dialer, registered, next);
    RegistrationsConcat(pre, tail);
    if env.open.None? {
      var last: seq<Effect> := if env.ping.Some? then [CloseDb(h)] else [];
      RegistrationsConcat([SqlOpen(h, cfg)], PoolSetup(h));
      RegistrationsConcat([SqlOpen(h, cfg)] + PoolSetup(h), last);
      RegistrationsOne(SqlOpen(h, cfg));
      NoRegistrations(PoolSetup(h));
      if env.ping.Some? { RegistrationsOne(CloseDb(h)); }
    }
  }

  /**
   * The "ssh" resolver is registered at most once per process: a Connect call
   * registers it exactly when it was not registered and the call got past the
   * tunnel; afterwards it stays registered.
   */
  lemma PlanRegistersOnce(p: ConnParams, env: Environment, dialer: Option<nat>, registered: bool, next: nat)
    ensures var s := ConnectPlan(p, env, dialer, registered, next);
            && s.registered == (registered || (p.UseSSH && env.tunnel.None?))
            && Registrations(s.effects) == (if !registered && s.registered then 1 else 0)
  {
    if p.UseSSH && env.tunnel.None? {
      TunnelRegistersOnce(p, env, dialer, registered, next);
    } else if !p.UseSSH {
      RegistrationsOne(SetDialer(None));
      OpenAndPingRegistrations(env, [SetDialer(None)], DriverFor(p, None), NoopCloser, None, registered, next);
    }
  }

  /** The effects up to the registration point: one registration exactly when none had happened. */
  lemma TunnelPreambleRegistrations(t: nat, registered: bool)
    ensures Registrations([OpenTunnel(t), SetDialer(Some(t))] + (if registered then [] else [RegisterSsh]))
            == if registered then 0 else 1
  {
    var reg: seq<Effect> := if registered then [] else [RegisterSsh];
    RegistrationsConcat([OpenTunnel(t), SetDialer(Some(t))], reg);
    NoRegistrations([OpenTunnel(t), SetDialer(Some(t))]);
    if !registered { RegistrationsOne(RegisterSsh); }
  }

  lemma TunnelRegistersOnce(p: ConnParams, env: Environment, dialer: Option<nat>, registered: bool, next: nat)
    requires p.UseSSH && env.tunnel.None?
    ensures var s := ConnectPlan(p, env, dialer, registered, next);
            && s.registered
            && Registrations(s.effects) == (if registered then 0 else 1)
  {
    var t := TunnelName(next);
    var pre := [OpenTunnel(t), SetDialer(Some(t))] + (if registered then [] else [RegisterSsh]);
    TunnelPreambleRegistrations(t, registered);
    if p.DBType == "postgres" {
      if env.listener.Ok? {
        var l := ListenerName(next);
        var more := [Listen(l, env.listener.value), StartForwarder(l)];
        var cfg := DriverFor(p, Some(env.listener.value));
        assert ConnectPlan(p, env, dialer, registered, next)
               == OpenAndPing(env, pre + more, cfg, ForwardCloser(l, t), Some(t), true, next);
        RegistrationsConcat(pre, more);
        NoRegistrations(more);
        OpenAndPingRegistrations(env, pre + more, cfg, ForwardCloser(l, t), Some(t), true, next);
      } else {
        assert ConnectPlan(p, env, dialer, registered, next) == Plan(pre, Failed(env.listener.error), Some(t), true);
      }
    } else {
      var cfg := DriverFor(p, None);
      assert ConnectPlan(p, env, dialer, registered, next)
             == OpenAndPing(env, pre, cfg, TunnelCloser(t), Some(t), true, next);
      OpenAndPingRegistrations(env, pre, cfg, TunnelCloser(t), Some(t), true, next);
    }
  }

  predicate ReachesOpen(p: ConnParams, env: Environment) {
    p.UseSSH ==> env.tunnel.None? && (p.DBType == "postgres" ==> env.listener.Ok?)
  }

  /** The forwarder port a call that reaches sql.Open points the driver at, if any. */
  function ForwarderPort(p: ConnParams, env: Environment): Option<int> {
    if p.UseSSH && p.DBType == "postgres" && env.listener.Ok? then Some(env.listener.value) else None
  }

  /** The close handle a successful call returns. */
  function CloserFor(p: ConnParams, next: nat): Closer {
    if !p.UseSSH then NoopCloser
    else if p.DBType == "postgres" then ForwardCloser(ListenerName(next), TunnelName(next))
    else TunnelCloser(TunnelName(next))
  }

  /**
   * The result of Connect: the error of the first step that failed (tunnel,
   * listener, open, ping, in that order), or the handle and its closer.
   */
  lemma PlanOutcome(p: ConnParams, env: Environment, dialer: Option<nat>, registered: bool, next: nat)
    ensures ConnectPlan(p, env, dialer, registered, next).outcome
            == if p.UseSSH && env.tunnel.Some? then Failed(env.tunnel.value)
               else if p.UseSSH && p.DBType == "postgres" && env.listener.Err? then Failed(env.listener.error)
               else if env.open.Some? then Failed(env.open.value)
               else if env.ping.Some? then Failed(env.ping.value)
               else Connected(HandleName(next), CloserFor(p, next))
  {
  }

  /** Connect succeeds exactly when every external step succeeds. */
  lemma PlanConnectedIff(p: ConnParams, env: Environment, dialer: Option<nat>, registered: bool, next: nat)
    ensures ConnectPlan(p, env, dialer, registered, next).outcome.Connected?
            <==> ReachesOpen(p, env) && env.open.None? && env.ping.None?
  {
    PlanOutcome(p, env, dialer, registered, next);
  }

  /** The effects of the open-and-ping phase, written out. */
  lemma OpenAndPingEffects(env: Environment, pre: seq<Effect>, cfg: DriverConfig, closer: Closer,
                           dialer: Option<nat>, registered: bool, next: nat)
    ensures var s := OpenAndPing(env, pre, cfg, closer, dialer, registered, next);
            var h := HandleName(next);
            s.effects == pre + (if env.open.Some? then []
                                else [SqlOpen(h, cfg)] + PoolSetup(h)
                                     + (if env.ping.Some? then [CloseDb(h)] else []))
  {
    var h := HandleName(next);
    var mid := [SqlOpen(h, cfg)] + PoolSetup(h);
    if env.open.None? {
      assert pre + [SqlOpen(h, cfg)] + PoolSetup(h) == pre + mid;
      if env.ping.Some? {
        assert pre + mid + [CloseDb(h)] == pre + (mid + [CloseDb(h)]);
      }
    }
  }

  /** The effects before sql.Open, for a call that reaches it. */
  function Preamble(p: ConnParams, env: Environment, registered: bool, next: nat): seq<Effect>
  {
    if p.UseSSH then
      var t := TunnelName(next);
      [OpenTunnel(t), SetDialer(Some(t))] + (if registered then [] else [RegisterSsh])
      + (if p.DBType == "postgres" && env.listener.Ok?
         then [Listen(ListenerName(next), env.listener.value), StartForwarder(ListenerName(next))] else [])
    else [SetDialer(None)]
  }

  /**
   * A call that reaches sql.Open opens the handle with the driver and string
   * chosen for its effective address, sets lifetime 5 minutes, at most 5 open
   * and 2 idle connections, then pings with a 5-second timeout; when the ping
   * fails the handle is closed and nothing else is.
   */
  lemma PlanOpenSequence(p: ConnParams, env: Environment, dialer: Option<nat>, registered: bool, next: nat)
    requires ReachesOpen(p, env) && env.open.None?
    ensures var h := HandleName(next);
            ConnectPlan(p, env, dialer, registered, next).effects
            == Preamble(p, env, registered, next) + [SqlOpen(h, DriverFor(p, ForwarderPort(p, env)))] + PoolSetup(h)
               + (if env.ping.Some? then [CloseDb(h)] else [])
  {
    if !p.UseSSH {
      PlanOpenDirect(p, env, dialer, registered, next);
    } else if p.DBType == "postgres" {
      PlanOpenForwarded(p, env, dialer, registered, next);
    } else {
      PlanOpenTunnelled(p, env, dialer, registered, next);
    }
  }

  /** The effects of the open-and-ping phase after `pre`, regrouped as the plan lemmas state them. */
  lemma OpenAndPingAfter(env: Environment, pre: seq<Effect>, cfg: DriverConfig, closer: Closer,
                         dialer: Option<nat>, registered: bool, next: nat)
    requires env.open.None?
    ensures var h := HandleName(next);
            OpenAndPing(env, pre, cfg, closer, dialer, registered, next).effects
            == pre + [SqlOpen(h, cfg)] + PoolSetup(h) + (if env.ping.Some? then [CloseDb(h)] else [])
  {
    var h := HandleName(next);
    var mid := [SqlOpen(h, cfg)] + PoolSetup(h);
    var last: seq<Effect> := if env.ping.Some? then [CloseDb(h)] else [];
    assert pre + (mid + last) == pre + [SqlOpen(h, cfg)] + PoolSetup(h) + last;
    OpenAndPingEffects(env, pre, cfg, closer, dialer, registered, next);
  }

  lemma PlanOpenDirect(p: ConnParams, env: Environment, dialer: Option<nat>, registered: bool, next: nat)
    requires !p.UseSSH && env.open.None?
    ensures var h := HandleName(next);
            ConnectPlan(p, env, dialer, registered, next).effects
            == Preamble(p, env, registered, next) + [SqlOpen(h, DriverFor(p, ForwarderPort(p, env)))] + PoolSetup(h)
               + (if env.ping.Some? then [CloseDb(h)] else [])
  {
    OpenAndPingAfter(env, [SetDialer(None)], DriverFor(p, ForwarderPort(p, env)), NoopCloser, None, registered, next);
  }

  lemma PlanOpenTunnelled(p: ConnParams, env: Environment, dialer: Option<nat>, registered: bool, next: nat)
    requires p.UseSSH && p.DBType != "postgres" && ReachesOpen(p, env) && env.open.None?
    ensures var h := HandleName(next);
            ConnectPlan(p, env, dialer, registered, next).effects
            == Preamble(p, env, registered, next) + [SqlOpen(h, DriverFor(p, ForwarderPort(p, env)))] + PoolSetup(h)
               + (if env.ping.Some? then [CloseDb(h)] else [])
  {
    var t := TunnelName(next);
    var pre := Preamble(p, env, registered, next);
    assert pre == [OpenTunnel(t), SetDialer(Some(t))] + (if registered then [] else [RegisterSsh]) + [];
    OpenAndPingAfter(env, pre, DriverFor(p, ForwarderPort(p, env)), TunnelCloser(t), Some(t), true, next);
  }

  lemma PlanOpenForwarded(p: ConnParams, env: Environment, dialer: Option<nat>, registered: bool, next: nat)
    requires p.UseSSH && p.DBType == "postgres" && ReachesOpen(p, env) && env.open.None?
    ensures var h := HandleName(next);
            ConnectPlan(p, env, dialer, registered, next).effects
            == Preamble(p, env, registered, next) + [SqlOpen(h, DriverFor(p, ForwarderPort(p, env)))] + PoolSetup(h)
               + (if env.ping.Some? then [CloseDb(h)] else [])
  {
    var t, l := TunnelName(next), ListenerName(next);
    var pre := Preamble(p, env, registered, next);
    assert pre == [OpenTunnel(t), SetDialer(Some(t))] + (if registered then [] else [RegisterSsh])
                  + [Listen(l, env.listener.value), StartForwarder(l)];
    OpenAndPingAfter(env, pre, DriverFor(p, ForwarderPort(p, env)), ForwardCloser(l, t), Some(t), true, next);
  }

  /**
   * PostgreSQL over SSH points lib/pq at the loopback forwarder; MySQL names
   * the real `Host:Port` behind the "ssh" protocol.
   */
  lemma PlanTunnelledDsn(p: ConnParams, env: Environment)
    requires p.UseSSH && ReachesOpen(p, env)
    ensures p.DBType == "postgres" ==>
              DriverFor(p, ForwarderPort(p, env)) == DriverConfig("postgres", PostgresDsn(Loopback, env.listener.value, p))
    ensures p.DBType == "mysql" ==>
              DriverFor(p, ForwarderPort(p, env)) == DriverConfig("mysql", MySqlDsn(p))
  {
  }

  /** Connect never releases anything: no closer runs, whatever fails. */
  predicate Releases(e: Effect) {
    e.SignalDone? || e.CloseListener? || e.CloseTunnel?
  }

  /**
   * Without SSH, Connect opens no tunnel or listener, registers nothing and
   * clears the dialer cell; a successful call returns the no-op closer.
   */
  lemma PlanWithoutSsh(p: ConnParams, env: Environment, dialer: Option<nat>, registered: bool, next: nat)
    requires !p.UseSSH
    ensures var s := ConnectPlan(p, env, dialer, registered, next);
            && s.dialer == None && s.registered == registered
            && (forall i :: 0 <= i < |s.effects| ==>
                  !s.effects[i].OpenTunnel? && !s.effects[i].Listen? && !s.effects[i].StartForwarder?
                  && !s.effects[i].RegisterSsh?)
            && (s.outcome.Connected? ==> s.outcome.closer == NoopCloser)
  {
    var h := HandleName(next);
    var s := ConnectPlan(p, env, dialer, registered, next);
    OpenAndPingEffects(env, [SetDialer(None)], DriverFor(p, None), NoopCloser, None, registered, next);
  }

  /** Names every effect mentions are below `n`. */
  predicate Below(e: Effect, n: nat) {
    match e
    case OpenTunnel(t) => t < n
    case SetDialer(d) => d.Some? ==> d.value < n
    case RegisterSsh => true
    case Listen(l, _) => l < n
    case StartForwarder(l) => l < n
    case SqlOpen(h, _) => h < n
    case SetConnMaxLifetime(h, _) => h < n
    case SetMaxOpenConns(h, _) => h < n
    case SetMaxIdleConns(h, _) => h < n
    case Ping(h, _) => h < n
    case CloseDb(h) => h < n
    case SignalDone(l) => l < n
    case CloseListener(l) => l < n
    case CloseTunnel(t) => t < n
  }

  /**
   * An effect of the Connect call starting at counter `next`: it releases
   * nothing, and every tunnel, listener or handle it names is the one this
   * call created under that role.
   */
  predicate FreshEffect(e: Effect, next: nat) {
    match e
    case OpenTunnel(t) => t == TunnelName(next)
    case SetDialer(d) => d.Some? ==> d.value == TunnelName(next)
    case RegisterSsh => true
    case Listen(l, _) => l == ListenerName(next)
    case StartForwarder(l) => l == ListenerName(next)
    case SqlOpen(h, _) => h == HandleName(next)
    case SetConnMaxLifetime(h, _) => h == HandleName(next)
    case SetMaxOpenConns(h, _) => h == HandleName(next)
    case SetMaxIdleConns(h, _) => h == HandleName(next)
    case Ping(h, _) => h == HandleName(next)
    case CloseDb(h) => h == HandleName(next)
    case SignalDone(_) => false
    case CloseListener(_) => false
    case CloseTunnel(_) => false
  }

  /** A fresh effect releases nothing and names nothing at or past `next + 3`. */
  lemma FreshIsBelow(e: Effect, next: nat)
    requires FreshEffect(e, next)
    ensures !Releases(e) && Below(e, next + 3)
  {
  }

  predicate AllFresh(es: seq<Effect>, next: nat) {
    forall i :: 0 <= i < |es| ==> FreshEffect(es[i], next)
  }

  lemma AllFreshConcat(a: seq<Effect>, b: seq<Effect>, next: nat)
    requires AllFresh(a, next) && AllFresh(b, next)
    ensures AllFresh(a + b, next)
  {
    forall i | 0 <= i < |a + b| ensures FreshEffect((a + b)[i], next) {
      if i < |a| { assert (a + b)[i] == a[i]; } else { assert (a + b)[i] == b[i - |a|]; }
    }
  }

  lemma PreambleFresh(p: ConnParams, env: Environment, registered: bool, next: nat)
    ensures AllFresh(Preamble(p, env, registered, next), next)
  {
    var t := TunnelName(next);
    var l := ListenerName(next);
    var reg: seq<Effect> := if registered then [] else [RegisterSsh];
    var base := [OpenTunnel(t), SetDialer(Some(t))] + reg;
    assert AllFresh(base, next) by {
      AllFreshConcat([OpenTunnel(t), SetDialer(Some(t))], reg, next);
    }
    if p.UseSSH && p.DBType == "postgres" && env.listener.Ok? {
      AllFreshConcat(base, [Listen(l, env.listener.value), StartForwarder(l)], next);
    } else if p.UseSSH {
      assert Preamble(p, env, registered, next) == base + [];
    }
  }

  /**
   * Connect releases nothing, whatever fails, and names only the resources
   * of this call: a failure after the tunnel (listener, open or ping) leaves
   * the SSH session open, and a ping failure leaves the forwarder running.
   */
  lemma PlanReleasesNothing(p: ConnParams, env: Environment, dialer: Option<nat>, registered: bool, next: nat)
    ensures AllFresh(ConnectPlan(p, env, dialer, registered, next).effects, next)
  {
    var s := ConnectPlan(p, env, dialer, registered, next);
    var pre := Preamble(p, env, registered, next);
    PreambleFresh(p, env, registered, next);
    if ReachesOpen(p, env) && env.open.None? {
      var h := HandleName(next);
      var opening := pre + [SqlOpen(h, DriverFor(p, ForwarderPort(p, env)))];
      var last: seq<Effect> := if env.ping.Some? then [CloseDb(h)] else [];
      assert s.effects == opening + PoolSetup(h) + last by {
        PlanOpenSequence(p, env, dialer, registered, next);
      }
      AllFreshConcat(pre, [SqlOpen(h, DriverFor(p, ForwarderPort(p, env)))], next);
      AllFreshConcat(opening, PoolSetup(h), next);
      AllFreshConcat(opening + PoolSetup(h), last, next);
    } else if ReachesOpen(p, env) {
      assert s.effects == pre by {
        OpenAndPingEffects(env, pre, DriverFor(p, ForwarderPort(p, env)), CloserFor(p, next),
                           s.dialer, s.registered, next);
      }
    } else if p.UseSSH && env.tunnel.None? {
      assert s.effects == pre;
    }
  }

  /** Once the tunnel is open, it is in the effects and the dialer cell names it, whatever fails next. */
  lemma PlanKeepsTunnel(p: ConnParams, env: Environment, dialer: Option<nat>, registered: bool, next: nat)
    requires p.UseSSH && env.tunnel.None?
    ensures var s := ConnectPlan(p, env, dialer, registered, next);
            OpenTunnel(TunnelName(next)) in s.effects && s.dialer == Some(TunnelName(next))
  {
    var s := ConnectPlan(p, env, dialer, registered, next);
    if ReachesOpen(p, env) {
      OpenAndPingEffects(env, Preamble(p, env, registered, next), DriverFor(p, ForwarderPort(p, env)),
                         CloserFor(p, next), s.dialer, s.registered, next);
    }
    assert s.effects[0] == OpenTunnel(TunnelName(next));
  }

  /**
   * The resolver after Connect: through the new tunnel once a tunnel opened;
   * without SSH, the direct dialer if it was ever registered and unknown
   * otherwise; a tunnel failure leaves it as it was.
   */
  lemma PlanResolve(p: ConnParams, env: Environment, dialer: Option<nat>, registered: bool, next: nat, addr: string)
    ensures var s := ConnectPlan(p, env, dialer, registered, next);
            Resolve(s.registered, s.dialer, addr)
            == if p.UseSSH && env.tunnel.None? then Some(ViaTunnel(TunnelName(next), addr))
               else if p.UseSSH then Resolve(registered, dialer, addr)
               else if registered then Some(DirectTcp(addr, DirectDialTimeoutSeconds))
               else None
  {
  }

  // ---------------------------------------------------------------------------
  // The forwarder's accept loop

  /** What the next Accept finds: a client (whose bridge dial through the tunnel may fail) or a transient error. */
  datatype Arrival = Client(dialOk: bool) | Transient

  /**
   * One Accept call as the forwarder goroutine sees it: whether done has been
   * signalled and whether the listener has been closed at that moment.
   */
  datatype AcceptCall = AcceptCall(done: bool, closed: bool, arrival: Arrival)

  /** Accept returns an error on a closed listener and on a transient failure. */
  predicate AcceptFails(c: AcceptCall) {
    c.closed || c.arrival.Transient?
  }

  /** The loop returns at a failing Accept made after done was signalled. */
  predicate Stops(c: AcceptCall) {
    AcceptFails(c) && c.done
  }

  /** The index of the Accept call at which the forwarder loop returns, if it does. */
  function StopIndex(calls: seq<AcceptCall>): (r: Option<nat>)
    ensures r.Some? ==> r.value < |calls| && Stops(calls[r.value])
    ensures r.Some? ==> forall i :: 0 <= i < r.value ==> !Stops(calls[i])
    ensures r.None? ==> forall i :: 0 <= i < |calls| ==> !Stops(calls[i])
  {
    if calls == [] then None
    else if Stops(calls[0]) then Some(0)
    else match StopIndex(calls[1..])
      case None => None
      case Some(k) => Some(k + 1)
  }

  /** The bridges started by a run of Accept calls: one per accepted client, recording whether its dial succeeded. */
  function Bridges(calls: seq<AcceptCall>): (b: seq<bool>)
    ensures |b| <= |calls|
  {
    if calls == [] then []
    else
      var last := calls[|calls| - 1];
      Bridges(calls[..|calls| - 1]) + (if AcceptFails(last) then [] else [last.arrival.dialOk])
  }

  /**
   * The forwarder goroutine over a finite run of Accept calls: it starts a
   * bridge per accepted client, skips an accept error while done is not
   * signalled, and returns at the first accept error after it is.
   */
  method RunAcceptLoop(calls: seq<AcceptCall>) returns (stop: Option<nat>, bridges: seq<bool>)
    ensures stop == StopIndex(calls)
    ensures bridges == Bridges(calls[..if stop.Some? then stop.value else |calls|])
  {
    var i := 0;
    bridges := [];
    while i < |calls|
      invariant 0 <= i <= |calls|
      invariant forall j :: 0 <= j < i ==> !Stops(calls[j])
      invariant bridges == Bridges(calls[..i])
    {
      var c := calls[i];
      assert calls[..i + 1][..i] == calls[..i];
      if AcceptFails(c) {
        if c.done {
          return Some(i), bridges;
        }
        i := i + 1;
        continue;
      }
      bridges := bridges + [c.arrival.dialOk];
      i := i + 1;
    }
    assert calls[..i] == calls;
    return None, bridges;
  }

  /** While done is not signalled the loop never returns, even on a closed listener. */
  lemma {:induction false} UnsignalledNeverStops(calls: seq<AcceptCall>)
    requires forall i :: 0 <= i < |calls| ==> !calls[i].done
    ensures StopIndex(calls) == None
  {
    if calls != [] {
      UnsignalledNeverStops(calls[1..]);
    }
  }

  /**
   * The forwarder sees listener `l` through the effects that have happened:
   * done and the listener's closing as recorded in the log.
   */
  function Observe(log: seq<Effect>, l: nat, arrival: Arrival): AcceptCall {
    AcceptCall(SignalDone(l) in log, CloseListener(l) in log, arrival)
  }

  /**
   * Once the composite closer has run, the next Accept fails with done
   * already signalled, so the loop returns there at the latest; while the
   * closer is part-way through, no Accept sees a closed listener without done.
   */
  lemma ForwarderStopsAfterClose(log: seq<Effect>, l: nat, t: nat, k: nat, arrival: Arrival)
    requires k <= 3
    requires SignalDone(l) !in log && CloseListener(l) !in log
    ensures var obs := Observe(log + CloseEffects(ForwardCloser(l, t))[..k], l, arrival);
            && (obs.closed ==> obs.done)
            && (k == 3 ==> Stops(obs))
  {
    var e := CloseEffects(ForwardCloser(l, t));
    CloseSignalsFirst(l, t, k);
    var all := log + e[..k];
    if CloseListener(l) in all {
      assert CloseListener(l) in e[..k];
      assert SignalDone(l) in all;
    }
    if k == 3 {
      assert e[..k] == [SignalDone(l), CloseListener(l), CloseTunnel(t)];
      assert all[|log| + 1] == CloseListener(l);
    }
  }

  // ---------------------------------------------------------------------------
  // The close handle

  /** What calling a close handle does, in order. */
  function CloseEffects(c: Closer): seq<Effect> {
    match c
    case NoopCloser => []
    case TunnelCloser(t) => [CloseTunnel(t)]
    case ForwardCloser(l, t) => [SignalDone(l), CloseListener(l), CloseTunnel(t)]
  }

  /**
   * Partway through the composite closer, a closed listener implies done was
   * already signalled, and the SSH session is closed only after both.
   */
  lemma CloseSignalsFirst(l: nat, t: nat, k: nat)
    requires k <= 3
    ensures var pre := CloseEffects(ForwardCloser(l, t))[..k];
            && (CloseListener(l) in pre ==> SignalDone(l) in pre)
            && (CloseTunnel(t) in pre ==> SignalDone(l) in pre && CloseListener(l) in pre)
  {
    var e := CloseEffects(ForwardCloser(l, t));
    if k == 1 { assert e[..k] == [SignalDone(l)]; }
    else if k == 2 { assert e[..k] == [SignalDone(l), CloseListener(l)]; }
    else if k == 3 { assert e[..k] == e; }
  }

  /** The names a close handle refers to are below `n`. */
  predicate CloserBelow(c: Closer, n: nat) {
    match c
    case NoopCloser => true
    case TunnelCloser(t) => t < n
    case ForwardCloser(l, t) => l < n && t < n
  }

  /** A close adds no registration and names only resources already allocated. */
  lemma CloseKeepsNames(log0: seq<Effect>, c: Closer, n: nat)
    requires NamesBelow(log0, n) && CloserBelow(c, n)
    ensures Registrations(log0 + CloseEffects(c)) == Registrations(log0)
    ensures NamesBelow(log0 + CloseEffects(c), n)
  {
    var es := CloseEffects(c);
    RegistrationsConcat(log0, es);
    NoRegistrations(es);
    assert NamesBelow(es, n);
    forall i | 0 <= i < |log0 + es| ensures Below((log0 + es)[i], n) {
      if i < |log0| { assert (log0 + es)[i] == log0[i]; } else { assert (log0 + es)[i] == es[i - |log0|]; }
    }
  }

  /** A Connect call's effects appended to a valid log keep it valid under the advanced counter. */
  lemma BrokerStep(log0: seq<Effect>, effects: seq<Effect>, next: nat, before: bool, after: bool)
    requires Registrations(log0) == (if before then 1 else 0)
    requires forall i :: 0 <= i < |log0| ==> Below(log0[i], next)
    requires AllFresh(effects, next)
    requires Registrations(effects) == (if !before && after then 1 else 0)
    requires before ==> after
    ensures Registrations(log0 + effects) == (if after then 1 else 0)
    ensures forall i :: 0 <= i < |log0 + effects| ==> Below((log0 + effects)[i], next + 3)
    ensures SignalDone(ListenerName(next)) !in log0 + effects
  {
    RegistrationsConcat(log0, effects);
    forall i | 0 <= i < |log0 + effects| ensures Below((log0 + effects)[i], next + 3) && (log0 + effects)[i] != SignalDone(ListenerName(next)) {
      if i < |log0| {
        assert (log0 + effects)[i] == log0[i];
        BelowMono(log0[i], next, next + 3);
        assert Below(log0[i], next);
      } else {
        assert (log0 + effects)[i] == effects[i - |log0|];
        FreshIsBelow(effects[i - |log0|], next);
      }
    }
  }

  /** What Valid needs of the log, the dialer cell and the counter after one Connect call. */
  lemma ConnectKeepsValid(p: ConnParams, env: Environment, dialer: Option<nat>, registered: bool, next: nat,
                          log0: seq<Effect>)
    requires Registrations(log0) == (if registered then 1 else 0)
    requires dialer.Some? ==> registered && dialer.value < next
    requires NamesBelow(log0, next)
    ensures var s := ConnectPlan(p, env, dialer, registered, next);
            && Registrations(log0 + s.effects) == (if s.registered then 1 else 0)
            && (s.dialer.Some? ==> s.registered && s.dialer.value < next + 3)
            && NamesBelow(log0 + s.effects, next + 3)
            && (s.outcome.Connected? ==> CloserBelow(s.outcome.closer, next + 3))
            && (s.outcome.Connected? && s.outcome.closer.ForwardCloser? ==>
                  SignalDone(s.outcome.closer.listener) !in log0 + s.effects)
  {
    var s := ConnectPlan(p, env, dialer, registered, next);
    PlanOutcome(p, env, dialer, registered, next);
    PlanRegistersOnce(p, env, dialer, registered, next);
    PlanReleasesNothing(p, env, dialer, registered, next);
    BrokerStep(log0, s.effects, next, registered, s.registered);
  }

  predicate NamesBelow(log: seq<Effect>, n: nat) {
    forall i :: 0 <= i < |log| ==> Below(log[i], n)
  }

  lemma BelowMono(e: Effect, m: nat, n: nat)
    requires Below(e, m) && m <= n
    ensures Below(e, n)
  {
  }

  // ---------------------------------------------------------------------------
  // The broker's state

  /**
   * The package-level state Connect works on (`currentSSHDialer` and the
   * `registerSSHOnce` gate), with the log of everything done so far and the
   * counter that names new tunnels, listeners and handles.
   */
  class Broker {
    /** The `currentSSHDialer` cell: the tunnel whose dialer the "ssh" resolver uses. */
    var dialer: Option<nat>
    /** Whether the run-once registration of the "ssh" resolver has happened. */
    var registered: bool
    /** Every effect so far, oldest first. */
    var log: seq<Effect>
    /** The next unused resource name. */
    var nextId: nat

    /** Registered exactly once if at all; the dialer only set after registration; all names allocated. */
    predicate Valid()
      reads this
    {
      && Registrations(log) == (if registered then 1 else 0)
      && (dialer.Some? ==> registered && dialer.value < nextId)
      && NamesBelow(log, nextId)
    }

    /** A fresh process: nothing registered, the dialer cell nil. */
    constructor()
      ensures Valid()
      ensures dialer == None && !registered && log == [] && nextId == 0
    {
      dialer := None;
      registered := false;
      log := [];
      nextId := 0;
    }

    /** The route a dial to `addr` over the "ssh" protocol takes right now. */
    function Route(addr: string): (r: Option<Route>)
      reads this
    {
      Resolve(registered, dialer, addr)
    }

    /**
     * Connect: open the tunnel and point the dialer cell at it (or clear the
     * cell without SSH), register the resolver once, bind the forwarder for
     * PostgreSQL over SSH, then open, configure and ping the database. A
     * closer it returns names resources of this call only, so it can be
     * called once.
     */
    method Connect(p: ConnParams, env: Environment) returns (r: Outcome)
      requires Valid()
      modifies this
      ensures Valid()
      ensures var s := ConnectPlan(p, env, old(dialer), old(registered), old(nextId));
              && r == s.outcome && log == old(log) + s.effects
              && dialer == s.dialer && registered == s.registered
      ensures nextId == old(nextId) + 3
      ensures r.Connected? ==> CloserBelow(r.closer, nextId)
      ensures r.Connected? && r.closer.ForwardCloser? ==> SignalDone(r.closer.listener) !in log
    {
      ConnectKeepsValid(p, env, dialer, registered, nextId, log);
      r := ConnectSteps(p, env);
    }

    /** The steps of Connect, in the order the source takes them. */
    method ConnectSteps(p: ConnParams, env: Environment) returns (r: Outcome)
      modifies this
      ensures var s := ConnectPlan(p, env, old(dialer), old(registered), old(nextId));
              && r == s.outcome && log == old(log) + s.effects
              && dialer == s.dialer && registered == s.registered
      ensures nextId == old(nextId) + 3
    {
      var next := nextId;
      var effects: seq<Effect>;
      if p.UseSSH {
        if env.tunnel.Some? {
          effects, r := [], Failed(env.tunnel.value);
        } else {
          var t := TunnelName(next);
          dialer := Some(t);
          effects := [OpenTunnel(t), SetDialer(Some(t))] + (if registered then [] else [RegisterSsh]);
          registered := true;
          if p.DBType == "postgres" {
            if env.listener.Err? {
              r := Failed(env.listener.error);
            } else {
              var l := ListenerName(next);
              effects := effects + [Listen(l, env.listener.value), StartForwarder(l)];
              effects, r := OpenSteps(env, effects, DriverFor(p, Some(env.listener.value)),
                                      ForwardCloser(l, t), dialer, registered, next);
            }
          } else {
            effects, r := OpenSteps(env, effects, DriverFor(p, None), TunnelCloser(t), dialer, registered, next);
          }
        }
      } else {
        dialer := None;
        effects, r := OpenSteps(env, [SetDialer(None)], DriverFor(p, None), NoopCloser, dialer, registered, next);
      }
      log := log + effects;
      nextId := nextId + 3;
    }

    /**
     * Calls a close handle. The composite closer closes the `done` channel, so
     * it may run at most once. `sessionErr` is what closing the SSH session
     * returns. The dialer cell is left as it is.
     */
    method Close(c: Closer, sessionErr: Option<string>) returns (err: Option<string>)
      requires Valid() && CloserBelow(c, nextId)
      requires c.ForwardCloser? ==> SignalDone(c.listener) !in log
      modifies this
      ensures Valid()
      ensures log == old(log) + CloseEffects(c)
      ensures dialer == old(dialer) && registered == old(registered) && nextId == old(nextId)
      ensures err == if c.NoopCloser? then None else sessionErr
    {
      ghost var log0 := log;
      match c {
        case NoopCloser =>
          err := None;
        case TunnelCloser(t) =>
          log := log + [CloseTunnel(t)];
          err := sessionErr;
        case ForwardCloser(l, t) =>
          log := log + [SignalDone(l)];
          log := log + [CloseListener(l)];
          log := log + [CloseTunnel(t)];
          err := sessionErr;
      }
      assert log == log0 + CloseEffects(c);
      CloseKeepsNames(log0, c, nextId);
    }
  }

}
