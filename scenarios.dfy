/** Concrete instances of the model: the window for a mid-month, a year-end and
    a month-end reference date, and the message for two sets of costs. */
module Scenarios {
  import opened Wrappers
  import opened DecimalText
  import opened Calendar
  import opened CostQuery
  import opened Message

  lemma FebruaryWindow()
    ensures QueryWindow(Date(2024, 2, 15)) == Some(Window(Date(2024, 2, 1), Date(2024, 3, 1)))
    ensures LastDay(Date(2024, 2, 15)) == Date(2024, 2, 29)
    ensures LastDay(Date(2023, 2, 15)) == Date(2023, 2, 28)
    ensures LastDay(Date(1900, 2, 1)) == Date(1900, 2, 28)
    ensures LastDay(Date(2000, 2, 1)) == Date(2000, 2, 29)
  {
  }

  lemma DecemberWindow()
    ensures QueryWindow(Date(2024, 12, 10)) == Some(Window(Date(2024, 12, 1), Date(2025, 1, 1)))
  {
  }

  lemma YearText()
    ensures Padded(2024, 4) == "2024" && Padded(2025, 4) == "2025"
  {
    assert Padded(2, 1) == "2";
    assert Padded(20, 2) == "20";
    assert Padded(202, 3) == "202";
  }

  lemma DecemberIsoText()
    ensures IsoFormat(Date(2024, 12, 1)) == "2024-12-01"
    ensures IsoFormat(Date(2025, 1, 1)) == "2025-01-01"
  {
    YearText();
  }

  lemma DecemberRequest()
    ensures TotalCostRequest(Date(2024, 12, 10))
            == Some(CostRequest("2024-12-01", "2025-01-01", "MONTHLY", ["UnblendedCost"], []))
  {
    DecemberWindow();
    DecemberIsoText();
  }

  /** January 31 plus one month is clamped to February 29 in 2024 and to
      February 28 in 2023; the window of January 31 still ends on February 1;
      December of the last year has no window. */
  lemma MonthEndWindow()
    ensures AddOneMonth(Date(2024, 1, 31)) == Some(Date(2024, 2, 29))
    ensures AddOneMonth(Date(2023, 1, 31)) == Some(Date(2023, 2, 28))
    ensures QueryWindow(Date(2024, 1, 31)) == Some(Window(Date(2024, 1, 1), Date(2024, 2, 1)))
    ensures QueryWindow(Date(MAX_YEAR, 12, 31)) == None
  {
  }

  /** EC2 rounds to zero and gets no line; S3 at exactly 10.005 rounds to the
      even cent, 10.00. The program itself prints 10.01 here: `float("10.005")`
      is slightly above 10.005, and `round` then goes up. */
  lemma SuppressedService()
    ensures MessageLines("123456789012", Metric(123.456, "USD"),
                         [Record("EC2", 0.001), Record("S3", 10.005)])
            == [Title(12346, "USD"), Account("123456789012"), Service("S3", 1000, "USD")]
  {
    assert Round2(123.456) == 12346;
    assert Round2(0.001) == 0;
    assert Round2(10.005) == 1000;
    var services := [Record("EC2", 0.001), Record("S3", 10.005)];
    assert services[..1] == [Record("EC2", 0.001)];
    assert services[..1][..0] == [];
    assert ServiceLines(services[..1], "USD") == [];
    assert ServiceLines(services, "USD") == [Service("S3", 1000, "USD")];
  }

  lemma AmountText()
    ensures FormatCents(4250) == "42.50"
  {
    assert Decimal(4) == "4";
    assert Decimal(42) == "42";
    assert Padded(5, 1) == "5";
    assert Padded(50, 2) == "50";
  }

  lemma SingleServiceLines()
    ensures MessageLines("123456789012", Metric(42.50, "USD"), [Record("Lambda", 42.50)])
            == [Title(4250, "USD"), Account("123456789012"), Service("Lambda", 4250, "USD")]
  {
  }

  lemma TitleText()
    ensures Render(Title(4250, "USD")) == "今月のAWS請求額は 42.50 USDです。"
  {
    AmountText();
  }

  lemma ServiceText()
    ensures Render(Service("Lambda", 4250, "USD")) == " ・Lambda: 42.50 USD"
  {
    AmountText();
  }

  lemma SingleServiceTexts()
    ensures RenderAll([Title(4250, "USD"), Account("123456789012"), Service("Lambda", 4250, "USD")])
            == ["今月のAWS請求額は 42.50 USDです。", "アカウントID: 123456789012", " ・Lambda: 42.50 USD"]
  {
    TitleText();
    ServiceText();
    var r := RenderAll([Title(4250, "USD"), Account("123456789012"), Service("Lambda", 4250, "USD")]);
    assert r[1] == "アカウントID: 123456789012";
    assert |r| == 3;
  }

  /** The message is the three lines of the scenario, joined by newlines. */
  lemma SingleServiceMessage()
    ensures Join(RenderAll(MessageLines("123456789012", Metric(42.50, "USD"), [Record("Lambda", 42.50)])))
            == Join(["今月のAWS請求額は 42.50 USDです。", "アカウントID: 123456789012", " ・Lambda: 42.50 USD"])
  {
    SingleServiceLines();
    SingleServiceTexts();
  }
}
