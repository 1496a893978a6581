/**
 * The shared infrastructure's database settings and the PostgreSQL connection string they
 * produce, which names a schema search path when one is configured.
 */
module Infrastructure {
  import opened Decimal

  /** Durations are counts of nanoseconds, as Go's `time.Duration`. */
  datatype DatabaseConfig = DatabaseConfig(
    host: string,
    port: int,
    username: string,
    password: string,
    name: string,
    schema: string,
    sslMode: string,
    maxOpenConns: int,
    maxIdleConns: int,
    connMaxLifetime: int,
    connectionTimeout: int)

  /** A TCP port number, as both configuration checks accept it: 1 to 65535. */
  predicate IsPort(p: int) { 1 <= p <= 65535 }

  /** The six `key=value` pairs, space separated, with the port in decimal. */
  function BaseDsn(c: DatabaseConfig): string {
    "host=" + c.host + " port=" + IntToString(c.port) + " user=" + c.username
    + " password=" + c.password + " dbname=" + c.name + " sslmode=" + c.sslMode
  }

  /** `DatabaseConfig.GetDSN`: the base string, plus ` search_path=<schema>` when a schema is set. */
  function GetDsn(c: DatabaseConfig): (dsn: string)
    ensures |BaseDsn(c)| <= |dsn| && dsn[..|BaseDsn(c)|] == BaseDsn(c)
    ensures c.schema == "" ==> dsn == BaseDsn(c)
  {
    var base := BaseDsn(c);
    if c.schema != "" then
      var dsn := base + (" search_path=" + c.schema);
      assert dsn == base + " search_path=" + c.schema;
      dsn
    else base
  }

  /**
   * The base string always begins the result; without a schema it is the whole result and
   * with one the result continues with exactly ` search_path=<schema>`.
   */
  lemma GetDsnExtendsBase(c: DatabaseConfig)
    ensures |BaseDsn(c)| <= |GetDsn(c)| && GetDsn(c)[..|BaseDsn(c)|] == BaseDsn(c)
    ensures c.schema == "" <==> GetDsn(c) == BaseDsn(c)
    ensures c.schema != "" ==> GetDsn(c)[|BaseDsn(c)|..] == " search_path=" + c.schema
  {
    var base := BaseDsn(c);
    if c.schema != "" {
      assert GetDsn(c) == base + (" search_path=" + c.schema);
    }
  }

  /** Pool sizes and timeouts never reach the connection string. */
  lemma GetDsnIgnoresPoolSettings(c: DatabaseConfig, open: int, idle: int, lifetime: int, timeout: int)
    ensures GetDsn(c.(maxOpenConns := open, maxIdleConns := idle,
                      connMaxLifetime := lifetime, connectionTimeout := timeout)) == GetDsn(c)
  {
  }

  /** The decimal text of PostgreSQL's default port. */
  lemma DefaultPortText()
    ensures IntToString(5432) == "5432"
  {
    assert NatToString(5) == "5";
    assert NatToString(54) == "54";
    assert NatToString(543) == "543";
  }

  /**
   * Example settings: the basic case of the billing API's DSN table, with the shared pool
   * sizes 25 and 5. The shared package has no example of its own; `GetDsnSchemaExample`
   * adds a schema to these settings as the model's own instance.
   */
  const Example := DatabaseConfig("localhost", 5432, "postgres", "password", "billing", "", "disable", 25, 5, 0, 0)

  /** The connection string as its six `key=value` pairs. */
  lemma BaseDsnPairs(c: DatabaseConfig)
    ensures BaseDsn(c) == ("host=" + c.host) + (" port=" + IntToString(c.port)) + (" user=" + c.username)
      + (" password=" + c.password) + (" dbname=" + c.name) + (" sslmode=" + c.sslMode)
  {
  }

  /** The connection string in three groups of pairs: server, credentials, database. */
  lemma BaseDsnGroups(c: DatabaseConfig)
    ensures BaseDsn(c) == ("host=" + c.host + " port=" + IntToString(c.port))
      + (" user=" + c.username + " password=" + c.password)
      + (" dbname=" + c.name + " sslmode=" + c.sslMode)
  {
  }

  /** The three groups of the example's connection string. */
  lemma ExampleServerGroup()
    ensures "host=" + Example.host + " port=" + IntToString(Example.port) == "host=localhost port=5432"
  {
    DefaultPortText();
  }

  lemma ExampleCredentialGroup()
    ensures " user=" + Example.username + " password=" + Example.password == " user=postgres password=password"
  {
  }

  lemma ExampleDatabaseGroup()
    ensures " dbname=" + Example.name + " sslmode=" + Example.sslMode == " dbname=billing sslmode=disable"
  {
  }

  /** The expected strings, in the three groups of pairs. */
  lemma GetDsnExample()
    ensures GetDsn(Example)
      == "host=localhost port=5432" + " user=postgres password=password" + " dbname=billing sslmode=disable"
  {
    BaseDsnGroups(Example);
    ExampleServerGroup();
    ExampleCredentialGroup();
    ExampleDatabaseGroup();
  }

  lemma GetDsnSchemaExample()
    ensures GetDsn(Example.(schema := "billing"))
      == "host=localhost port=5432" + " user=postgres password=password" + " dbname=billing sslmode=disable"
         + " search_path=billing"
  {
    GetDsnExample();
    assert BaseDsn(Example.(schema := "billing")) == BaseDsn(Example);
  }
}
