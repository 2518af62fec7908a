/**
 * The database connection singleton: one `Connection` instance per process,
 * holding one driver connection that is checked with a ping before each use
 * and recreated when the ping fails.
 *
 * The driver is foreign. Whether `oracledb.connect`, `ping` and `close`
 * succeed is passed in as a boolean for each call; a call that does not
 * succeed is one that raised.
 */
module DbConnection {
  import opened Wrappers

  /** `os.getenv(name)`. */
  function GetEnv(env: map<string, string>, name: string): (r: Option<string>)
    ensures r.Some? <==> name in env
    ensures r.Some? ==> r.value == env[name]
  {
    if name in env then Some(env[name]) else None
  }

  /** The configuration kept to reconnect with. */
  datatype DbConfig = DbConfig(user: Option<string>, password: Option<string>, dsn: Option<string>,
                               configDir: Option<string>, walletLocation: Option<string>,
                               walletPassword: Option<string>)

  /** `_db_config`, read once from the environment; the configuration directory and the wallet are the same variable. */
  function ConfigFrom(env: map<string, string>): (r: DbConfig)
    ensures r.configDir == r.walletLocation == GetEnv(env, "CON_ADB_WALLET_LOCATION")
    ensures r.user.Some? <==> "CON_ADB_DEV_USER_NAME" in env
    ensures r.password.Some? <==> "CON_ADB_DEV_PASSWORD" in env
    ensures r.dsn.Some? <==> "CON_ADB_DEV_SERVICE_NAME" in env
    ensures r.walletPassword.Some? <==> "CON_ADB_WALLET_PASSWORD" in env
  {
    DbConfig(GetEnv(env, "CON_ADB_DEV_USER_NAME"), GetEnv(env, "CON_ADB_DEV_PASSWORD"),
             GetEnv(env, "CON_ADB_DEV_SERVICE_NAME"), GetEnv(env, "CON_ADB_WALLET_LOCATION"),
             GetEnv(env, "CON_ADB_WALLET_LOCATION"), GetEnv(env, "CON_ADB_WALLET_PASSWORD"))
  }

  /** A driver connection: whether it was closed, and its autocommit setting. */
  class Conn {
    var closed: bool
    var autocommit: bool

    constructor ()
      ensures !closed && !autocommit
    {
      closed := false;
      autocommit := false;
    }

    /** `conn.close()`: closes the connection when the driver call succeeds. */
    method Close(ok: bool)
      modifies this
      ensures closed == (old(closed) || ok) && autocommit == old(autocommit)
    {
      if ok {
        closed := true;
      }
    }
  }

  /** `_create_connection`: a fresh, open connection with autocommit on, or `null` when connecting raised. */
  method CreateConnection(config: DbConfig, connectOk: bool) returns (c: Conn?)
    ensures connectOk <==> c != null
    ensures c != null ==> fresh(c) && !c.closed && c.autocommit
  {
    if connectOk {
      c := new Conn();
      c.autocommit := true;
    } else {
      c := null;
    }
  }

  /** What a call on the instance ended with. */
  datatype Outcome = Done | DriverError | MissingAttribute

  /** A `Connection` instance: its configuration and its `conn` attribute, which may never have been assigned. */
  class Connection {
    const config: DbConfig
    /** Whether the `conn` attribute exists at all. */
    var hasConn: bool
    var conn: Conn?

    /** `super().__new__` plus `_db_config`: no `conn` attribute yet. */
    constructor (config: DbConfig)
      ensures this.config == config && !hasConn && conn == null
    {
      this.config := config;
      hasConn := false;
      conn := null;
    }

    /** An instance without the attribute holds no connection, and every connection it holds has autocommit on. */
    predicate Valid()
      reads this, conn
    {
      (!hasConn ==> conn == null) && (conn != null ==> conn.autocommit)
    }

    /**
     * `_ensure_connection`: with no connection it creates one; a connection
     * whose ping succeeds is kept; one whose ping fails is closed (a failure
     * to close is ignored) and replaced by a fresh one. When the replacement
     * cannot be created the error propagates and the old connection stays.
     * Without a `conn` attribute, reading it raises.
     */
    method EnsureConnection(pingOk: bool, closeOk: bool, connectOk: bool) returns (outcome: Outcome)
      requires Valid()
      modifies this, conn
      ensures Valid()
      ensures !old(hasConn) ==> outcome == MissingAttribute && conn == null && !hasConn
      ensures old(hasConn) ==> hasConn
      ensures old(hasConn) && old(conn) == null ==>
        (connectOk <==> outcome == Done) && (connectOk ==> conn != null && fresh(conn) && !conn.closed) &&
        (!connectOk ==> conn == null)
      ensures old(hasConn) && old(conn) != null && pingOk ==>
        outcome == Done && conn == old(conn) && conn.closed == old(conn.closed)
      ensures old(hasConn) && old(conn) != null && !pingOk ==>
        old(conn).closed == (old(conn.closed) || closeOk) &&
        (connectOk <==> outcome == Done) &&
        (connectOk ==> conn != old(conn) && fresh(conn) && !conn.closed) &&
        (!connectOk ==> conn == old(conn) && outcome == DriverError)
    {
      if !hasConn {
        outcome := MissingAttribute;
        return;
      }
      if conn == null {
        var c := CreateConnection(config, connectOk);
        conn := c;
        outcome := if c == null then DriverError else Done;
        return;
      }
      if pingOk {
        outcome := Done;
      } else {
        conn.Close(closeOk);
        var c := CreateConnection(config, connectOk);
        if c == null {
          outcome := DriverError;
        } else {
          conn := c;
          outcome := Done;
        }
      }
    }

    /** `get_connection`: the connection after ensuring it, present whenever ensuring it succeeded. */
    method GetConnection(pingOk: bool, closeOk: bool, connectOk: bool) returns (result: Result<Conn, Outcome>)
      requires Valid()
      modifies this, conn
      ensures Valid()
      ensures result.Ok? ==> old(hasConn) && result.value == conn && result.value.autocommit
      ensures result.Ok? && old(conn) != null && pingOk ==> result.value == old(conn)
      ensures result.Ok? && (old(conn) == null || !pingOk) ==> fresh(result.value) && !result.value.closed
      ensures !old(hasConn) ==> result == Err(MissingAttribute)
      ensures old(hasConn) && (connectOk || (old(conn) != null && pingOk)) ==> result.Ok?
    {
      var outcome := EnsureConnection(pingOk, closeOk, connectOk);
      if outcome == Done {
        result := Ok(conn);
      } else {
        result := Err(outcome);
      }
    }

    /** `close_connection`: a held connection is closed and dropped; a failed close is re-raised and keeps it; with none it does nothing. */
    method CloseConnection(closeOk: bool) returns (outcome: Outcome)
      requires Valid()
      modifies this, conn
      ensures Valid() && hasConn == old(hasConn)
      ensures !old(hasConn) ==> outcome == MissingAttribute && conn == null
      ensures old(hasConn) && old(conn) == null ==> outcome == Done && conn == null
      ensures old(hasConn) && old(conn) != null && closeOk ==> outcome == Done && conn == null && old(conn).closed
      ensures old(hasConn) && old(conn) != null && !closeOk ==>
        outcome == DriverError && conn == old(conn) && conn.closed == old(conn.closed)
    {
      if !hasConn {
        outcome := MissingAttribute;
        return;
      }
      if conn == null {
        outcome := Done;
        return;
      }
      conn.Close(closeOk);
      if closeOk {
        conn := null;
        outcome := Done;
      } else {
        outcome := DriverError;
      }
    }

    /** `__enter__` returns the instance itself; `__exit__` closes the connection. */
    method Exit(closeOk: bool) returns (outcome: Outcome)
      requires Valid()
      modifies this, conn
      ensures Valid() && hasConn == old(hasConn)
      ensures old(hasConn) && closeOk ==> outcome == Done && conn == null && (old(conn) != null ==> old(conn).closed)
      ensures old(hasConn) && !closeOk ==> conn == old(conn)
    {
      outcome := CloseConnection(closeOk);
    }
  }

  /** The class object, whose `_instance` attribute is the singleton. */
  class Registry {
    var instance: Connection?

    constructor ()
      ensures instance == null
    {
      instance := null;
    }

    /** The singleton, once created, is a valid instance. */
    predicate Valid()
      reads this, instance, if instance == null then null else instance.conn
    {
      instance != null ==> instance.Valid()
    }

    /**
     * `Connection()` as written: the first call registers the instance
     * before connecting, so a connection error leaves it registered
     * without a `conn` attribute; every later call returns the registered
     * instance without connecting.
     */
    method NewAsWritten(env: map<string, string>, connectOk: bool) returns (c: Connection, outcome: Outcome)
      requires Valid()
      modifies this
      ensures Valid() && instance == c
      ensures old(instance) != null ==> c == old(instance) && outcome == Done
      ensures old(instance) == null ==> fresh(c) && c.config == ConfigFrom(env)
      ensures old(instance) == null && connectOk ==>
        outcome == Done && c.hasConn && c.conn != null && fresh(c.conn) && !c.conn.closed && c.conn.autocommit
      ensures old(instance) == null && !connectOk ==> outcome == DriverError && !c.hasConn && c.conn == null
    {
      if instance != null {
        c := instance;
        outcome := Done;
        return;
      }
      c := new Connection(ConfigFrom(env));
      instance := c;
      var made := CreateConnection(c.config, connectOk);
      if made == null {
        outcome := DriverError;
      } else {
        c.conn := made;
        c.hasConn := true;
        outcome := Done;
      }
    }

    /**
     * `Connection()` with `conn` set to `None` before connecting, so that a
     * failed first connection leaves an instance the next
     * `_ensure_connection` reconnects.
     */
    method New(env: map<string, string>, connectOk: bool) returns (c: Connection, outcome: Outcome)
      requires Valid()
      modifies this
      ensures Valid() && instance == c
      ensures old(instance) != null ==> c == old(instance) && outcome == Done
      ensures old(instance) == null ==> fresh(c) && c.config == ConfigFrom(env) && c.hasConn
      ensures old(instance) == null && connectOk ==>
        outcome == Done && c.conn != null && fresh(c.conn) && !c.conn.closed && c.conn.autocommit
      ensures old(instance) == null && !connectOk ==> outcome == DriverError && c.conn == null
    {
      if instance != null {
        c := instance;
        outcome := Done;
        return;
      }
      c := new Connection(ConfigFrom(env));
      c.hasConn := true;
      instance := c;
      var made := CreateConnection(c.config, connectOk);
      c.conn := made;
      outcome := if made == null then DriverError else Done;
    }
  }

  /**
   * As written, one failed first connection breaks the process for good:
   * the next `Connection()` hands back the same instance and
   * `get_connection` fails on the missing attribute even though the
   * database is reachable again.
   */
  method FailedFirstConnectAsWritten(env: map<string, string>) returns (first: Outcome, later: Result<Conn, Outcome>)
    ensures first == DriverError && later == Err(MissingAttribute)
  {
    var cls := new Registry();
    var c, o := cls.NewAsWritten(env, false);
    first := o;
    var again, o2 := cls.NewAsWritten(env, true);
    assert again == c;
    later := again.GetConnection(true, true, true);
  }

  /** With the attribute set first, the next `get_connection` after a failed first connection connects. */
  method FailedFirstConnectRecovers(env: map<string, string>) returns (first: Outcome, later: Result<Conn, Outcome>)
    ensures first == DriverError && later.Ok? && !later.value.closed && later.value.autocommit
  {
    var cls := new Registry();
    var c, o := cls.New(env, false);
    first := o;
    var again, o2 := cls.New(env, true);
    assert again == c;
    later := again.GetConnection(true, true, true);
  }

  /** Two constructions give one instance and one connection: the second does not reconnect. */
  method SingletonReused(env: map<string, string>) returns (a: Connection, b: Connection)
    ensures a == b && a.hasConn && a.conn != null && !a.conn.closed
  {
    var cls := new Registry();
    var o1, o2;
    a, o1 := cls.New(env, true);
    var held := a.conn;
    b, o2 := cls.New(env, true);
    assert a.conn == held;
  }
}
