/** Worked messages: concrete billing records and the exact text (or the
    absence of one) they produce. */
module MessageExamples {
  import opened Optional
  import opened Text
  import opened Calendar
  import opened Decimal
  import opened CostExplorer
  import opened MessageFormatting

  lemma Year2024Digits()
    ensures PaddedDigits(2024, 4) == "2024"
  {
    assert PaddedDigits(2, 1) == "2";
    assert PaddedDigits(20, 2) == "20";
    assert PaddedDigits(202, 3) == "202";
  }

  lemma TwoDigits(n: nat)
    requires n < 100
    ensures PaddedDigits(n, 2) == [DigitChar(n / 10), DigitChar(n % 10)]
  {
    assert PaddedDigits(n / 10, 1) == [DigitChar(n / 10)];
  }

  lemma ParsesIn2024(d: Date, s: string)
    requires Valid(d) && d.year == 2024
    requires s == "2024-" + [DigitChar(d.month / 10), DigitChar(d.month % 10)]
                  + "-" + [DigitChar(d.day / 10), DigitChar(d.day % 10)]
    ensures ParseIso(s) == Some(d)
  {
    Year2024Digits();
    TwoDigits(d.month);
    TwoDigits(d.day);
    assert IsoFormat(d) == s;
    IsoRoundTrip(d);
  }

  lemma ShowsAs(d: Date, s: string)
    requires Valid(d)
    requires s == [DigitChar(d.month / 10), DigitChar(d.month % 10)]
                  + "/" + [DigitChar(d.day / 10), DigitChar(d.day % 10)]
    ensures MonthDay(d) == s
  {
    TwoDigits(d.month);
    TwoDigits(d.day);
  }

  lemma JuneText()
    ensures "06/01" + RangeSeparator + "06/09" + AmountIntro + "10.500" + CurrencySuffix
         == "06/01～06/09の請求額は、10.500 USDです。"
  {
  }

  lemma JuneMantissa()
    ensures DigitsValue("105") == 105
  {
    assert PaddedDigits(1, 1) == "1";
    assert PaddedDigits(10, 2) == "10";
    assert PaddedDigits(105, 3) == "105";
  }

  lemma JuneAmount()
    ensures ParseDecimal("10.5") == Some(Decimal(false, 105, 1))
    ensures RenderThousandths(RoundThousandths(Decimal(false, 105, 1))) == "10.500"
  {
    assert Unsigned("10.5") == "10" + "." + "5";
    assert DecimalShape(Unsigned("10.5"), "10", "5");
    assert "10" + "5" == "105";
    JuneMantissa();
    assert RoundThousandths(Decimal(false, 105, 1)) == Thousandths(false, 10500);
    JuneRendering();
  }

  lemma JuneRendering()
    ensures RenderThousandths(Thousandths(false, 10500)) == "10.500"
  {
    assert PaddedDigits(1, 1) == "1";
    assert PaddedDigits(10, 1) == "10";
    assert PaddedDigits(5, 1) == "5";
    assert PaddedDigits(50, 2) == "50";
    assert PaddedDigits(500, 3) == "500";
  }

  /** A whole-number amount is read with no fractional digits and shown
      with three zeros after the point. */
  lemma WholeAmount()
    ensures ParseDecimal("42") == Some(Decimal(false, 42, 0))
    ensures RenderThousandths(RoundThousandths(Decimal(false, 42, 0))) == "42.000"
  {
    assert Unsigned("42") == "42" && "42" + "" == "42";
    assert DecimalShape(Unsigned("42"), "42", "");
    assert PaddedDigits(4, 1) == "4";
    assert PaddedDigits(42, 2) == "42";
    assert RoundThousandths(Decimal(false, 42, 0)) == Thousandths(false, 42000);
    assert PaddedDigits(42, 1) == "42";
    assert PaddedDigits(0, 1) == "0";
    assert PaddedDigits(0, 2) == "00";
    assert PaddedDigits(0, 3) == "000";
  }

  /** A June record: the end shows one day earlier and the amount gains
      trailing zeros. */
  lemma JuneMessage()
    ensures FormatBillingMessage(BillingInfo("2024-06-01", "2024-06-10", "10.5"))
         == Some("06/01～06/09の請求額は、10.500 USDです。")
  {
    var start, end, shown := Date(2024, 6, 1), Date(2024, 6, 10), Date(2024, 6, 9);
    ParsesIn2024(start, "2024-06-01");
    ParsesIn2024(end, "2024-06-10");
    assert PrevDay(end) == Some(shown);
    ShowsAs(start, "06/01");
    ShowsAs(shown, "06/09");
    JuneAmount();
    JuneText();
  }

  lemma LeapText()
    ensures "02/01" + RangeSeparator + "02/29" + AmountIntro + "12.346" + CurrencySuffix
         == "02/01～02/29の請求額は、12.346 USDです。"
  {
  }

  lemma LeapMantissa()
    ensures DigitsValue("123456") == 123456
  {
    assert PaddedDigits(1, 1) == "1";
    assert PaddedDigits(12, 2) == "12";
    assert PaddedDigits(123, 3) == "123";
    assert PaddedDigits(1234, 4) == "1234";
    assert PaddedDigits(12345, 5) == "12345";
    assert PaddedDigits(123456, 6) == "123456";
  }

  lemma LeapAmount()
    ensures ParseDecimal("12.3456") == Some(Decimal(false, 123456, 4))
    ensures RenderThousandths(RoundThousandths(Decimal(false, 123456, 4))) == "12.346"
  {
    assert Unsigned("12.3456") == "12" + "." + "3456";
    assert DecimalShape(Unsigned("12.3456"), "12", "3456");
    assert "12" + "3456" == "123456";
    LeapMantissa();
    assert RoundThousandths(Decimal(false, 123456, 4)) == Thousandths(false, 12346);
    LeapRendering();
  }

  lemma LeapRendering()
    ensures RenderThousandths(Thousandths(false, 12346)) == "12.346"
  {
    assert PaddedDigits(1, 1) == "1";
    assert PaddedDigits(12, 1) == "12";
    assert PaddedDigits(3, 1) == "3";
    assert PaddedDigits(34, 2) == "34";
    assert PaddedDigits(346, 3) == "346";
  }

  /** The report sent on 1 March 2024 covers February: the end shown is the
      leap day, and the amount is rounded to three decimals. */
  lemma LeapDayMessage()
    ensures FormatBillingMessage(BillingInfo("2024-02-01", "2024-03-01", "12.3456"))
         == Some("02/01～02/29の請求額は、12.346 USDです。")
  {
    var start, end, shown := Date(2024, 2, 1), Date(2024, 3, 1), Date(2024, 2, 29);
    ParsesIn2024(start, "2024-02-01");
    ParsesIn2024(end, "2024-03-01");
    assert PrevDay(end) == Some(shown);
    ShowsAs(start, "02/01");
    ShowsAs(shown, "02/29");
    LeapAmount();
    LeapText();
  }

  /** An amount that is not a number gives no message. */
  lemma UnparseableAmountGivesNothing()
    ensures FormatBillingMessage(BillingInfo("2024-06-01", "2024-06-10", "n/a")).None?
  {
    assert IndexOf("n/a", '.') == None;
    assert !IsDigit('n');
  }

  /** An end date with no day before it gives no message. */
  lemma FirstRepresentableEndGivesNothing(start: string)
    ensures FormatBillingMessage(BillingInfo(start, "0001-01-01", "1")).None?
  {
    var first := Date(MinYear, 1, 1);
    assert PaddedDigits(1, 1) == "1";
    assert PaddedDigits(0, 1) == "0";
    assert PaddedDigits(0, 2) == "00";
    assert PaddedDigits(0, 3) == "000";
    assert PaddedDigits(1, 4) == "0001";
    TwoDigits(1);
    assert IsoFormat(first) == "0001-01-01";
    IsoRoundTrip(first);
  }
}
