/**
 * The standalone billing API's configuration: its startup check, the CORS origin allow-list
 * and its PostgreSQL connection string, which never carries a search path.
 */
module ApiConfig {
  import opened Decimal
  import Infrastructure

  datatype ServerConfig = ServerConfig(port: int, mode: string, readTimeout: int, writeTimeout: int)

  datatype DatabaseConfig = DatabaseConfig(
    host: string,
    port: int,
    username: string,
    password: string,
    name: string,
    sslMode: string,
    maxOpenConns: int,
    maxIdleConns: int,
    connMaxLifetime: int)

  datatype CorsConfig = CorsConfig(
    allowedOrigins: seq<string>,
    allowedMethods: seq<string>,
    allowedHeaders: seq<string>)

  datatype PaginationConfig = PaginationConfig(defaultLimit: int, maxLimit: int)

  datatype Config = Config(
    server: ServerConfig,
    database: DatabaseConfig,
    cors: CorsConfig,
    pagination: PaginationConfig)

  /** `validateConfig`: the server port and the database host. */
  function ValidateConfig(c: Config): (ok: bool)
    ensures ok <==> Infrastructure.IsPort(c.server.port) && c.database.host != ""
  {
    if c.server.port <= 0 || c.server.port > 65535 then false
    else if c.database.host == "" then false
    else true
  }

  /** The validation table: a good port and host pass; port -1, port 65536 and an empty host fail. */
  lemma ValidateConfigTable(c: Config)
    ensures ValidateConfig(c) <==> Infrastructure.IsPort(c.server.port) && c.database.host != ""
    ensures ValidateConfig(c.(server := c.server.(port := 8080), database := c.database.(host := "localhost")))
    ensures !ValidateConfig(c.(server := c.server.(port := -1), database := c.database.(host := "localhost")))
    ensures !ValidateConfig(c.(server := c.server.(port := 8080), database := c.database.(host := "")))
    ensures !ValidateConfig(c.(server := c.server.(port := 65536), database := c.database.(host := "localhost")))
  {
  }

  /** An allow-list admits an origin when it holds the wildcard "*" or the origin itself. */
  predicate Admits(origins: seq<string>, origin: string) {
    "*" in origins || origin in origins
  }

  /** `isOriginAllowed`: scan the list, stopping at the first entry that is "*" or the origin. */
  method IsOriginAllowed(config: CorsConfig, origin: string) returns (allowed: bool)
    ensures allowed <==> Admits(config.allowedOrigins, origin)
  {
    var origins := config.allowedOrigins;
    var i := 0;
    while i < |origins|
      invariant 0 <= i <= |origins|
      invariant "*" !in origins[..i] && origin !in origins[..i]
    {
      if origins[i] == "*" || origins[i] == origin {
        return true;
      }
      i := i + 1;
    }
    assert origins[..i] == origins;
    return false;
  }

  /** A wildcard anywhere admits every origin; the empty list admits none. */
  lemma WildcardAndEmpty(before: seq<string>, after: seq<string>, origin: string)
    ensures Admits(before + ["*"] + after, origin)
    ensures !Admits([], origin)
  {
    assert (before + ["*"] + after)[|before|] == "*";
  }

  /** Adding entries never takes an admission away. */
  lemma AdmitsGrows(origins: seq<string>, more: seq<string>, origin: string)
    requires Admits(origins, origin)
    ensures Admits(origins + more, origin) && Admits(more + origins, origin)
  {
    if "*" in origins {
      var i :| 0 <= i < |origins| && origins[i] == "*";
      assert (origins + more)[i] == "*" && (more + origins)[|more| + i] == "*";
    } else {
      var i :| 0 <= i < |origins| && origins[i] == origin;
      assert (origins + more)[i] == origin && (more + origins)[|more| + i] == origin;
    }
  }

  /** The allow-list table: wildcard, a listed origin, an origin that is not listed. */
  lemma CorsTable()
    ensures Admits(["*"], "https://example.com")
    ensures Admits(["https://app.example.com", "https://api.example.com"], "https://app.example.com")
    ensures !Admits(["https://app.example.com"], "https://evil.com")
  {
    assert ["*"][0] == "*";
    assert ["https://app.example.com", "https://api.example.com"][0] == "https://app.example.com";
    assert "https://app.example.com" != "*" && "https://app.example.com"[8] != "https://evil.com"[8];
  }

  /** `DatabaseConfig.GetDSN`: the six `key=value` pairs, with the port in decimal. */
  function GetDsn(c: DatabaseConfig): (dsn: string)
    ensures dsn == Infrastructure.GetDsn(AsShared(c))
  {
    "host=" + c.host + " port=" + IntToString(c.port) + " user=" + c.username
    + " password=" + c.password + " dbname=" + c.name + " sslmode=" + c.sslMode
  }

  /** The same settings in the shared configuration, without a schema. */
  function AsShared(c: DatabaseConfig): Infrastructure.DatabaseConfig {
    Infrastructure.DatabaseConfig(c.host, c.port, c.username, c.password, c.name, "", c.sslMode,
                                  c.maxOpenConns, c.maxIdleConns, c.connMaxLifetime, 0)
  }

  /**
   * This connection string is the shared one without a schema, hence never has a
   * `search_path` suffix; the pool settings do not reach it.
   */
  lemma GetDsnIsSharedWithoutSchema(c: DatabaseConfig, open: int, idle: int, lifetime: int)
    ensures GetDsn(c) == Infrastructure.GetDsn(AsShared(c)) == Infrastructure.BaseDsn(AsShared(c))
    ensures GetDsn(c.(maxOpenConns := open, maxIdleConns := idle, connMaxLifetime := lifetime)) == GetDsn(c)
  {
  }

  /** The basic configuration of the DSN table. */
  lemma GetDsnBasic()
    ensures GetDsn(DatabaseConfig("localhost", 5432, "postgres", "password", "billing", "disable", 0, 0, 0))
      == "host=localhost port=5432" + " user=postgres password=password" + " dbname=billing sslmode=disable"
  {
    var c := DatabaseConfig("localhost", 5432, "postgres", "password", "billing", "disable", 0, 0, 0);
    assert AsShared(c) == Infrastructure.Example.(maxOpenConns := 0, maxIdleConns := 0);
    Infrastructure.GetDsnIgnoresPoolSettings(Infrastructure.Example, 0, 0, 0, 0);
    Infrastructure.GetDsnExample();
  }

  /** The production configuration of the DSN table. */
  const Production := DatabaseConfig("prod-db.example.com", 5432, "billing_user", "secure_password",
                                     "billing_prod", "require", 0, 0, 0)

  /** The server pairs of the production configuration. */
  lemma ProductionServerPairs()
    ensures "host=" + Production.host == "host=prod-db.example.com"
    ensures " port=" + IntToString(Production.port) == " port=5432"
  {
    Infrastructure.DefaultPortText();
  }

  /** The credential pairs of the production configuration. */
  lemma ProductionCredentialPairs()
    ensures " user=" + Production.username == " user=billing_user"
    ensures " password=" + Production.password == " password=secure_password"
  {
  }

  /** The database pairs of the production configuration. */
  lemma ProductionDatabasePairs()
    ensures " dbname=" + Production.name == " dbname=billing_prod"
    ensures " sslmode=" + Production.sslMode == " sslmode=require"
  {
  }

  /** The expected string of the table, pair by pair. */
  lemma GetDsnProduction()
    ensures GetDsn(Production)
      == "host=prod-db.example.com" + " port=5432" + " user=billing_user" + " password=secure_password"
         + " dbname=billing_prod" + " sslmode=require"
  {
    Infrastructure.BaseDsnPairs(AsShared(Production));
    ProductionServerPairs();
    ProductionCredentialPairs();
    ProductionDatabasePairs();
  }
}
