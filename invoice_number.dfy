/**
 * Invoice numbering: "INV-" followed by the calendar date of today in the basic format of
 * ISO 8601 (YYYYMMDD), a hyphen, and one more than the number of invoices created today,
 * in decimal.
 */
module InvoiceNumbers {
  import opened Wrappers
  import opened Decimal
  import opened Clock

  function InvoiceNumber(today: Date, createdToday: nat): (number: string)
    ensures var suffix := NatToString(createdToday + 1);
      && |number| >= 5 + |suffix| && number[..4] == "INV-"
      && number[|number| - |suffix| - 1] == '-' && number[|number| - |suffix|..] == suffix
  {
    var suffix := NatToString(createdToday + 1);
    var number := "INV-" + BasicDate(today) + "-" + suffix;
    assert number == ("INV-" + BasicDate(today) + "-") + suffix;
    number
  }

  /** Reads a number of that shape back into its date and sequence number. */
  function ParseInvoiceNumber(s: string): (r: Option<(Date, nat)>)
    ensures r.Some? ==> |s| >= 14 && s[..4] == "INV-" && s[12] == '-' && AllDigits(s[13..])
  {
    if |s| >= 14 && s[..4] == "INV-" && s[12] == '-' && AllDigits(s[4..12]) && AllDigits(s[13..]) then
      var date := ParseBasicDate(s[4..12]);
      assert date.Some?;
      Some((date.value, ParseDigits(s[13..])))
    else None
  }

  /** The number of a valid date reads back as that date and the count plus one. */
  lemma InvoiceNumberRoundTrip(today: Date, createdToday: nat)
    requires ValidDate(today)
    ensures ParseInvoiceNumber(InvoiceNumber(today, createdToday)) == Some((today, createdToday + 1))
  {
    BasicDateRoundTrip(today);
    ParseNatToString(createdToday + 1);
    var s := InvoiceNumber(today, createdToday);
    assert s[..4] == "INV-";
    assert s[4..12] == BasicDate(today);
    assert s[12] == '-';
    assert s[13..] == NatToString(createdToday + 1);
  }

  /** Numbers differ whenever the dates differ or the counts differ; the suffix is at least 1. */
  lemma InvoiceNumberInjective(d1: Date, c1: nat, d2: Date, c2: nat)
    requires ValidDate(d1) && ValidDate(d2)
    ensures InvoiceNumber(d1, c1) == InvoiceNumber(d2, c2) ==> d1 == d2 && c1 == c2
  {
    InvoiceNumberRoundTrip(d1, c1);
    InvoiceNumberRoundTrip(d2, c2);
  }

  /** The first invoice of 15 January 2024 is numbered INV-20240115-1. */
  lemma FirstNumberOfTheDay()
    ensures InvoiceNumber(Date(2024, 1, 15), 0) == "INV-20240115-1"
  {
    assert NatToString(2024) == "2024" by {
      assert NatToString(2) == "2";
      assert NatToString(20) == "20";
      assert NatToString(202) == "202";
    }
    assert Padded(1, 2) == "01" && Padded(15, 2) == "15";
  }
}
