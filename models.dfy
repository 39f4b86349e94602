/** The connection record handed from the forms to the broker and stored in saved profiles. */
module Models {

  /**
   * Database connection parameters. `DBType` is "mysql" or "postgres" by
   * convention, but it is a free string: every value other than "mysql" is
   * treated as PostgreSQL by the broker. The SSH fields mean something only
   * when `UseSSH` holds. Ports are Go `int`s (64 bits).
   */
  datatype ConnParams = ConnParams(
    DBType: string,
    Host: string,
    Port: int,
    User: string,
    Pass: string,
    DB: string,
    UseSSH: bool,
    SSHHost: string,
    SSHPort: int,
    SSHUser: string,
    SSHPass: string
  )

  /** A named, saved connection profile. */
  datatype SavedConnection = SavedConnection(Name: string, Params: ConnParams, IsFavorite: bool)
}
