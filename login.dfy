/**
 * The connection forms of the login screen (internal/ui/login.go): the
 * engine selector's port/user rule, the label-to-`DBType` mapping, the
 * `ConnParams` each tab builds from its text fields, and the name a saved
 * connection gets when none is typed. The TCP/IP and SSH tabs are classes
 * whose fields are the widgets' texts; their callbacks update them in place.
 */
module Login {
  import opened Wrappers
  import opened Text
  import opened Models
  import opened Config

  const MySqlLabel: string := "MySQL"
  const PostgresLabel: string := "PostgreSQL"
  const MySqlPort: string := "3306"
  const PostgresPort: string := "5432"
  const MySqlUser: string := "root"
  const PostgresUser: string := "postgres"

  // ---------------------------------------------------------------------------
  // Engine selector

  /** The text of the port and user fields. */
  datatype PortUser = PortUser(port: string, user: string)

  /**
   * The selector's `OnChanged` rule, the same in both tabs: switching to an
   * engine puts its default port in place of the other engine's default or an
   * empty port, and its default user in place of the other engine's default
   * user; every other text is kept, and so is everything on any other label.
   */
  function EngineSwitch(value: string, f: PortUser): (r: PortUser)
    ensures value == MySqlLabel ==>
              && (r.port == MySqlPort <==> f.port in {PostgresPort, "", MySqlPort})
              && (r.port != MySqlPort ==> r.port == f.port)
              && (r.user == MySqlUser <==> f.user in {PostgresUser, MySqlUser})
              && (r.user != MySqlUser ==> r.user == f.user)
    ensures value == PostgresLabel ==>
              && (r.port == PostgresPort <==> f.port in {MySqlPort, "", PostgresPort})
              && (r.port != PostgresPort ==> r.port == f.port)
              && (r.user == PostgresUser <==> f.user in {MySqlUser, PostgresUser})
              && (r.user != PostgresUser ==> r.user == f.user)
    ensures value != MySqlLabel && value != PostgresLabel ==> r == f
  {
    if value == MySqlLabel then
      PortUser(if f.port == PostgresPort || f.port == "" then MySqlPort else f.port,
               if f.user == PostgresUser then MySqlUser else f.user)
    else if value == PostgresLabel then
      PortUser(if f.port == MySqlPort || f.port == "" then PostgresPort else f.port,
               if f.user == MySqlUser then PostgresUser else f.user)
    else f
  }

  /** Selecting the same engine twice is selecting it once. */
  lemma EngineSwitchIdempotent(value: string, f: PortUser)
    ensures EngineSwitch(value, EngineSwitch(value, f)) == EngineSwitch(value, f)
  {
  }

  /**
   * Going to PostgreSQL and back restores the MySQL defaults, and going to
   * MySQL and back restores the PostgreSQL ones; a port or user that is no
   * engine's default is never touched.
   */
  lemma EngineSwitchRoundTrip(f: PortUser)
    ensures f.port in {MySqlPort, ""} && f.user == MySqlUser ==>
              EngineSwitch(MySqlLabel, EngineSwitch(PostgresLabel, f)) == PortUser(MySqlPort, MySqlUser)
    ensures f.port in {PostgresPort, ""} && f.user == PostgresUser ==>
              EngineSwitch(PostgresLabel, EngineSwitch(MySqlLabel, f)) == PortUser(PostgresPort, PostgresUser)
    ensures f.port !in {MySqlPort, PostgresPort, ""} && f.user !in {MySqlUser, PostgresUser} ==>
              forall v :: EngineSwitch(v, f) == f
  {
  }

  /** The `DBType` of a selector label: "postgres" for PostgreSQL, "mysql" for anything else. */
  function DBTypeOf(engine: string): (t: string)
    ensures t == "postgres" <==> engine == PostgresLabel
    ensures t == "mysql" <==> engine != PostgresLabel
  {
    if engine == PostgresLabel then "postgres" else "mysql"
  }

  // ---------------------------------------------------------------------------
  // ConnParams built by the Connect buttons

  /** The TCP/IP tab's fields. */
  datatype TcpFields = TcpFields(engine: string, host: string, user: string, pass: string,
                                 db: string, port: string)

  /** The SSH tab's fields: the database's, then the tunnel's. */
  datatype SshFields = SshFields(engine: string, host: string, user: string, pass: string,
                                 db: string, port: string,
                                 sshHost: string, sshUser: string, sshPass: string, sshPort: string)

  /**
   * The TCP/IP tab's parameters: host, user and database trimmed, the
   * password as typed, the port read by strconv.Atoi from the trimmed text
   * (its error ignored), no tunnel; the SSH fields keep their zero values.
   */
  function TcpParams(f: TcpFields): (p: ConnParams)
    ensures p.DBType == DBTypeOf(f.engine) && !p.UseSSH && p.Pass == f.pass
    ensures Trimmed(p.Host) && Trimmed(p.User) && Trimmed(p.DB)
    ensures IsInt64(p.Port)
    ensures p.SSHHost == "" && p.SSHPort == 0 && p.SSHUser == "" && p.SSHPass == ""
  {
    ConnParams(DBTypeOf(f.engine), TrimSpace(f.host), Atoi(TrimSpace(f.port)).value,
               TrimSpace(f.user), f.pass, TrimSpace(f.db), false, "", 0, "", "")
  }

  /** The SSH tab's parameters: as the TCP/IP tab's, with the tunnel on and its fields read the same way. */
  function SshParams(f: SshFields): (p: ConnParams)
    ensures p.DBType == DBTypeOf(f.engine) && p.UseSSH && p.Pass == f.pass && p.SSHPass == f.sshPass
    ensures Trimmed(p.Host) && Trimmed(p.User) && Trimmed(p.DB) && Trimmed(p.SSHHost) && Trimmed(p.SSHUser)
    ensures IsInt64(p.Port) && IsInt64(p.SSHPort)
  {
    ConnParams(DBTypeOf(f.engine), TrimSpace(f.host), Atoi(TrimSpace(f.port)).value,
               TrimSpace(f.user), f.pass, TrimSpace(f.db), true,
               TrimSpace(f.sshHost), Atoi(TrimSpace(f.sshPort)).value, TrimSpace(f.sshUser), f.sshPass)
  }

  /** A port typed as a decimal, with any white space around it, is read back as that number. */
  lemma PortTextRoundTrip(a: string, n: int, b: string)
    requires AllSpace(a) && AllSpace(b) && IsInt64(n)
    ensures Atoi(TrimSpace(a + Decimal(n) + b)) == AtoiResult(n, true)
  {
    var s := Decimal(n);
    assert !IsSpace(s[0]) by {
      assert s[0] == '-' || IsDigit(s[0]);
    }
    assert !IsSpace(s[|s| - 1]) by {
      assert s[|s| - 1] == '-' || IsDigit(s[|s| - 1]);
    }
    TrimSpacePadded(a, s, b);
    AtoiDecimal(n);
  }

  /** A digit loop that meets a non-digit before any digit stops with a syntax error. */
  lemma {:induction false} ScanLeadingNonDigit(s: string)
    requires s != [] && !IsDigit(s[0])
    ensures ScanDigits(s) == SyntaxError
    decreases |s|
  {
    if |s| > 1 {
      ScanLeadingNonDigit(s[..|s| - 1]);
    }
  }

  /**
   * A port text that is blank, or does not start with a sign or a digit, is
   * read as port 0: the parse error is dropped and Atoi's zero value is kept.
   */
  lemma UnparsablePortIsZero(port: string)
    requires var t := TrimSpace(port); t == [] || (t[0] != '-' && t[0] != '+' && !IsDigit(t[0]))
    ensures Atoi(TrimSpace(port)) == AtoiResult(0, false)
  {
    var t := TrimSpace(port);
    if t != [] {
      ScanLeadingNonDigit(t);
    }
  }

  /** Text typed with white space around it reaches the parameters without that padding. */
  lemma TcpParamsTrim(f: TcpFields, a: string, b: string)
    requires AllSpace(a) && AllSpace(b) && Trimmed(f.host) && Trimmed(f.user) && Trimmed(f.db)
    ensures var p := TcpParams(f.(host := a + f.host + b, user := a + f.user + b, db := a + f.db + b));
            p.Host == f.host && p.User == f.user && p.DB == f.db
  {
    TrimSpacePadded(a, f.host, b);
    TrimSpacePadded(a, f.user, b);
    TrimSpacePadded(a, f.db, b);
  }

  /** The two tabs agree on every database field; they differ only in the tunnel. */
  lemma TabsAgree(f: SshFields)
    ensures var t := TcpParams(TcpFields(f.engine, f.host, f.user, f.pass, f.db, f.port));
            SshParams(f) == t.(UseSSH := true, SSHHost := TrimSpace(f.sshHost),
                               SSHPort := Atoi(TrimSpace(f.sshPort)).value,
                               SSHUser := TrimSpace(f.sshUser), SSHPass := f.sshPass)
  {
  }

  // ---------------------------------------------------------------------------
  // Saved-connection names

  /** The typed name, trimmed; when that is blank, `Host:Port` (TCP/IP tab). */
  function TcpSaveName(name: string, p: ConnParams): (n: string)
    ensures TrimSpace(name) != "" ==> n == TrimSpace(name)
    ensures TrimSpace(name) == "" ==> n == p.Host + ":" + Decimal(p.Port)
  {
    var typed := TrimSpace(name);
    if typed == "" then p.Host + ":" + Decimal(p.Port) else typed
  }

  /** The typed name, trimmed; when that is blank, `Host via SSH` (SSH tab). */
  function SshSaveName(name: string, p: ConnParams): (n: string)
    ensures TrimSpace(name) != "" ==> n == TrimSpace(name)
    ensures TrimSpace(name) == "" ==> n == p.Host + " via SSH"
  {
    var typed := TrimSpace(name);
    if typed == "" then p.Host + " via SSH" else typed
  }

  /**
   * The default TCP/IP name takes apart again: the text after its last ':'
   * is the port, the text before it the host.
   */
  lemma TcpDefaultNameRoundTrip(p: ConnParams)
    requires IsInt64(p.Port)
    ensures var n := TcpSaveName("", p);
            LastIndex(n, ':') == Some(|p.Host|)
            && n[..|p.Host|] == p.Host
            && Atoi(n[|p.Host| + 1..]) == AtoiResult(p.Port, true)
  {
    var d := Decimal(p.Port);
    assert TrimSpace("") == "";
    NoSeparatorInDecimal(p.Port, ':');
    LastIndexAt(p.Host, ':', d);
    var n := p.Host + ":" + d;
    assert n == p.Host + [':'] + d;
    assert n[|p.Host| + 1..] == d;
    AtoiDecimal(p.Port);
  }

  /** A name typed by the user, with any padding, is saved as typed. */
  lemma TypedNameKept(a: string, name: string, b: string, p: ConnParams)
    requires AllSpace(a) && AllSpace(b) && Trimmed(name) && name != ""
    ensures TcpSaveName(a + name + b, p) == name && SshSaveName(a + name + b, p) == name
  {
    TrimSpacePadded(a, name, b);
  }

  // ---------------------------------------------------------------------------
  // The tabs

  /** The TCP/IP tab: its widgets' texts, the selector and the save box. */
  class TcpTab {
    var selected: string
    var name: string
    var host: string
    var user: string
    var pass: string
    var db: string
    var port: string
    var save: bool

    /** The tab as created: MySQL, 127.0.0.1, root, port 3306, nothing else filled in. */
    constructor()
      ensures selected == MySqlLabel && host == "127.0.0.1" && user == MySqlUser && port == MySqlPort
      ensures name == "" && pass == "" && db == "" && !save
    {
      selected := MySqlLabel;
      name := "";
      host := "127.0.0.1";
      user := MySqlUser;
      pass := "";
      db := "";
      port := MySqlPort;
      save := false;
    }

    function Fields(): TcpFields
      reads this
    {
      TcpFields(selected, host, user, pass, db, port)
    }

    /** `dbType.OnChanged`: the selector now shows `value`; port and user follow the engine rule. */
    method EngineChanged(value: string)
      modifies this
      ensures selected == value
      ensures PortUser(port, user) == EngineSwitch(value, PortUser(old(port), old(user)))
      ensures name == old(name) && host == old(host) && pass == old(pass) && db == old(db) && save == old(save)
    {
      selected := value;
      if value == MySqlLabel {
        if port == PostgresPort || port == "" {
          port := MySqlPort;
        }
        if user == PostgresUser {
          user := MySqlUser;
        }
      } else if value == PostgresLabel {
        if port == MySqlPort || port == "" {
          port := PostgresPort;
        }
        if user == MySqlUser {
          user := PostgresUser;
        }
      }
    }

    /**
     * The Connect button: builds the parameters; when the box is ticked,
     * saves them under the typed or default name (`saveErr` is what `Save`
     * returns, and becomes the error shown). The parameters are handed on
     * whether or not saving failed.
     */
    method Connect(store: Store, saveErr: Option<string>) returns (p: ConnParams, err: Option<string>)
      modifies store
      ensures p == TcpParams(Fields())
      ensures save ==> store.connections == Upsert(old(store.connections),
                                                   SavedConnection(TcpSaveName(name, p), p, false))
                       && store.saves == old(store.saves) + 1 && err == saveErr
      ensures !save ==> store.connections == old(store.connections) && store.saves == old(store.saves)
                        && err == None
    {
      p := TcpParams(Fields());
      err := None;
      if save {
        err := store.AddConnection(SavedConnection(TcpSaveName(name, p), p, false), saveErr);
      }
    }
  }

  /** The SSH tab: the database fields of the TCP/IP tab plus the tunnel's. */
  class SshTab {
    var selected: string
    var name: string
    var host: string
    var user: string
    var pass: string
    var db: string
    var port: string
    var sshHost: string
    var sshUser: string
    var sshPass: string
    var sshPort: string
    var save: bool

    /** The tab as created: MySQL, 127.0.0.1, root, port 3306, SSH port 22. */
    constructor()
      ensures selected == MySqlLabel && host == "127.0.0.1" && user == MySqlUser && port == MySqlPort
      ensures sshPort == "22" && name == "" && pass == "" && db == ""
      ensures sshHost == "" && sshUser == "" && sshPass == "" && !save
    {
      selected := MySqlLabel;
      name := "";
      host := "127.0.0.1";
      user := MySqlUser;
      pass := "";
      db := "";
      port := MySqlPort;
      sshHost := "";
      sshUser := "";
      sshPass := "";
      sshPort := "22";
      save := false;
    }

    function Fields(): SshFields
      reads this
    {
      SshFields(selected, host, user, pass, db, port, sshHost, sshUser, sshPass, sshPort)
    }

    /** `dbType.OnChanged`, the same rule as the TCP/IP tab's; the SSH fields are left alone. */
    method EngineChanged(value: string)
      modifies this
      ensures selected == value
      ensures PortUser(port, user) == EngineSwitch(value, PortUser(old(port), old(user)))
      ensures name == old(name) && host == old(host) && pass == old(pass) && db == old(db) && save == old(save)
      ensures sshHost == old(sshHost) && sshUser == old(sshUser) && sshPass == old(sshPass)
      ensures sshPort == old(sshPort)
    {
      selected := value;
      if value == MySqlLabel {
        if port == PostgresPort || port == "" {
          port := MySqlPort;
        }
        if user == PostgresUser {
          user := MySqlUser;
        }
      } else if value == PostgresLabel {
        if port == MySqlPort || port == "" {
          port := PostgresPort;
        }
        if user == MySqlUser {
          user := PostgresUser;
        }
      }
    }

    /** The Connect button: as the TCP/IP tab's, with the tunnel on and `Host via SSH` as default name. */
    method Connect(store: Store, saveErr: Option<string>) returns (p: ConnParams, err: Option<string>)
      modifies store
      ensures p == SshParams(Fields())
      ensures save ==> store.connections == Upsert(old(store.connections),
                                                   SavedConnection(SshSaveName(name, p), p, false))
                       && store.saves == old(store.saves) + 1 && err == saveErr
      ensures !save ==> store.connections == old(store.connections) && store.saves == old(store.saves)
                        && err == None
    {
      p := SshParams(Fields());
      err := None;
      if save {
        err := store.AddConnection(SavedConnection(SshSaveName(name, p), p, false), saveErr);
      }
    }
  }
}
