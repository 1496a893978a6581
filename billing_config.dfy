/**
 * The billing domain's configuration check, run once after loading: a chain of guards over
 * the server, database, pagination, invoice and client settings, the first failing one
 * deciding the message.
 */
module BillingConfig {
  import opened Wrappers
  import opened Decimal
  import Infrastructure

  datatype ServerConfig = ServerConfig(port: int)

  datatype PaginationConfig = PaginationConfig(defaultLimit: int, maxLimit: int)

  datatype InvoiceConfig = InvoiceConfig(numberPrefix: string, defaultCurrency: string, paymentTermsDays: int)

  datatype ClientConfig = ClientConfig(requireEmailVerification: bool, maxNameLength: int)

  datatype BillingConfig = BillingConfig(
    server: ServerConfig,
    database: Infrastructure.DatabaseConfig,
    pagination: PaginationConfig,
    invoice: InvoiceConfig,
    client: ClientConfig)

  /** Every check passes. */
  predicate Acceptable(c: BillingConfig) {
    && Infrastructure.IsPort(c.server.port)
    && c.database.host != "" && Infrastructure.IsPort(c.database.port)
    && c.database.name != "" && c.database.username != ""
    && c.pagination.defaultLimit > 0 && c.pagination.maxLimit > 0
    && c.pagination.defaultLimit <= c.pagination.maxLimit
    && c.invoice.paymentTermsDays >= 0
    && c.client.maxNameLength > 0
  }

  /** `BillingConfig.Validate`. */
  function Validate(c: BillingConfig): (r: Outcome<string>)
    ensures r.Pass? <==> Acceptable(c)
  {
    if c.server.port <= 0 || c.server.port > 65535 then
      Fail("invalid server port: " + IntToString(c.server.port) + " (must be 1-65535)")
    else if c.database.host == "" then Fail("database host is required")
    else if c.database.port <= 0 || c.database.port > 65535 then
      Fail("invalid database port: " + IntToString(c.database.port) + " (must be 1-65535)")
    else if c.database.name == "" then Fail("database name is required")
    else if c.database.username == "" then Fail("database username is required")
    else if c.pagination.defaultLimit <= 0 then Fail("pagination default limit must be positive")
    else if c.pagination.maxLimit <= 0 then Fail("pagination max limit must be positive")
    else if c.pagination.defaultLimit > c.pagination.maxLimit then
      Fail("pagination default limit (" + IntToString(c.pagination.defaultLimit)
           + ") cannot exceed max limit (" + IntToString(c.pagination.maxLimit) + ")")
    else if c.invoice.paymentTermsDays < 0 then Fail("payment terms days cannot be negative")
    else if c.client.maxNameLength <= 0 then Fail("client max name length must be positive")
    else Pass
  }

  /**
   * The first failing check decides: a bad server port is reported whatever else is wrong,
   * and a later check is only reported when every earlier one passed.
   */
  lemma FirstFailureDecides(c: BillingConfig)
    ensures !Infrastructure.IsPort(c.server.port) ==>
      Validate(c) == Fail("invalid server port: " + IntToString(c.server.port) + " (must be 1-65535)")
    ensures Validate(c) == Fail("client max name length must be positive") ==>
      && Infrastructure.IsPort(c.server.port) && Infrastructure.IsPort(c.database.port)
      && c.database.host != "" && c.database.name != "" && c.database.username != ""
      && 0 < c.pagination.defaultLimit <= c.pagination.maxLimit
      && c.invoice.paymentTermsDays >= 0 && c.client.maxNameLength <= 0
    ensures Validate(c) == Fail("database host is required") <==>
      Infrastructure.IsPort(c.server.port) && c.database.host == ""
  {
    var m := "invalid server port: " + IntToString(c.server.port) + " (must be 1-65535)";
    assert m[0] == 'i' && "database host is required"[0] == 'd';
  }

  /**
   * A negative port appears in the message with its sign: the character after
   * "invalid server port: " is '-', followed by the port's magnitude in decimal.
   */
  lemma NegativePortMessage(c: BillingConfig)
    requires c.server.port < 0
    ensures Validate(c) == Fail("invalid server port: " + "-" + NatToString(-c.server.port) + " (must be 1-65535)")
    ensures Validate(c).error[21] == '-'
    ensures c.server.port == -1 ==> Validate(c) == Fail("invalid server port: " + "-1" + " (must be 1-65535)")
  {
    var prefix := "invalid server port: ";
    var digits := NatToString(-c.server.port);
    assert IntToString(c.server.port) == "-" + digits;
    assert prefix + ("-" + digits) == prefix + "-" + digits;
    assert (prefix + "-" + digits)[21] == '-';
    if c.server.port == -1 {
      assert NatToString(1) == "1";
      assert "-" + NatToString(1) == "-1";
    }
  }

  /**
   * Once the server and database checks pass, a positive default limit above a positive
   * maximum is reported with both limits in decimal; 50 over 20 is one such message.
   */
  lemma PaginationMessage(c: BillingConfig)
    requires Infrastructure.IsPort(c.server.port) && Infrastructure.IsPort(c.database.port)
    requires c.database.host != "" && c.database.name != "" && c.database.username != ""
    requires 0 < c.pagination.maxLimit < c.pagination.defaultLimit
    ensures Validate(c) == Fail("pagination default limit (" + NatToString(c.pagination.defaultLimit)
      + ") cannot exceed max limit (" + NatToString(c.pagination.maxLimit) + ")")
    ensures c.pagination == PaginationConfig(50, 20) ==>
      Validate(c) == Fail("pagination default limit (" + "50" + ") cannot exceed max limit (" + "20" + ")")
  {
    assert IntToString(c.pagination.defaultLimit) == NatToString(c.pagination.defaultLimit);
    assert IntToString(c.pagination.maxLimit) == NatToString(c.pagination.maxLimit);
    if c.pagination == PaginationConfig(50, 20) {
      assert NatToString(5) == "5" && NatToString(2) == "2";
      assert NatToString(50) == NatToString(5) + [DigitChar(0)] == "50";
      assert NatToString(20) == NatToString(2) + [DigitChar(0)] == "20";
    }
  }

  /** A payment term of zero days and a default limit equal to the maximum are acceptable. */
  lemma BoundaryValuesPass(c: BillingConfig)
    requires Acceptable(c)
    ensures Validate(c.(invoice := c.invoice.(paymentTermsDays := 0))).Pass?
    ensures Validate(c.(pagination := PaginationConfig(c.pagination.maxLimit, c.pagination.maxLimit))).Pass?
    ensures Validate(c.(server := ServerConfig(65535))).Pass? && !Validate(c.(server := ServerConfig(65536))).Pass?
  {
  }
}
