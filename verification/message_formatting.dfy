/** `format_billing_message`: the notification text built from a billing
    record. */
module MessageFormatting {
  import opened Optional
  import opened Text
  import opened Calendar
  import opened Decimal
  import opened CostExplorer

  const RangeSeparator := "～"
  const AmountIntro := "の請求額は、"
  const CurrencySuffix := " USDです。"

  /** Start as `MM/DD`, the day before the (exclusive) end as `MM/DD`, and the
      amount rounded to three decimals, in the fixed sentence. A date that
      does not parse, an end with no day before it, or an amount that does
      not parse gives `None` (`format_billing_message` catches the exception). */
  function FormatBillingMessage(info: BillingInfo): (r: Option<string>)
    ensures r.Some? <==>
      && ParseIso(info.start).Some?
      && ParseIso(info.end).Some?
      && ParseIso(info.end).value != Date(MinYear, 1, 1)
      && ParseDecimal(info.billing).Some?
  {
    match (ParseIso(info.start), ParseIso(info.end))
    case (Some(start), Some(endToday)) =>
      (match (PrevDay(endToday), ParseDecimal(info.billing))
       case (Some(endYesterday), Some(amount)) =>
         var total := RenderThousandths(RoundThousandths(amount));
         Some(MonthDay(start) + RangeSeparator + MonthDay(endYesterday) + AmountIntro + total + CurrencySuffix)
       case _ => None)
    case _ => None
  }

  /** Where each part sits in a formatted message. */
  const EndDayAt := 6
  const IntroAt := 11
  const AmountAt := IntroAt + |AmountIntro|

  lemma SlicesOfMessage(from: string, to: string, total: string, m: string)
    requires |from| == 5 && |to| == 5
    requires m == from + RangeSeparator + to + AmountIntro + total + CurrencySuffix
    ensures |m| == AmountAt + |total| + |CurrencySuffix|
    ensures m[..5] == from && m[5..EndDayAt] == RangeSeparator
    ensures m[EndDayAt..IntroAt] == to && m[IntroAt..AmountAt] == AmountIntro
    ensures m[AmountAt..|m| - |CurrencySuffix|] == total
    ensures m[|m| - |CurrencySuffix|..] == CurrencySuffix
  {
    var head := from + RangeSeparator + to + AmountIntro;
    assert |head| == AmountAt;
    assert m == head + total + CurrencySuffix;
    assert m[..AmountAt] == head;
    assert head[..5] == from;
    assert head[5..EndDayAt] == RangeSeparator;
    assert head[EndDayAt..IntroAt] == to;
    assert head[IntroAt..AmountAt] == AmountIntro;
  }

  /** The pieces a formatted message is made of, each at its place. */
  lemma MessageParts(info: BillingInfo)
    requires FormatBillingMessage(info).Some?
    ensures var m := FormatBillingMessage(info).value;
            && |m| >= AmountAt + |CurrencySuffix|
            && m[..5] == MonthDay(ParseIso(info.start).value)
            && m[5..EndDayAt] == RangeSeparator
            && m[EndDayAt..IntroAt] == MonthDay(PrevDay(ParseIso(info.end).value).value)
            && m[IntroAt..AmountAt] == AmountIntro
            && m[AmountAt..|m| - |CurrencySuffix|]
               == RenderThousandths(RoundThousandths(ParseDecimal(info.billing).value))
            && EndsWith(m, CurrencySuffix)
  {
    var m := FormatBillingMessage(info).value;
    var start := ParseIso(info.start).value;
    var shown := PrevDay(ParseIso(info.end).value).value;
    var total := RenderThousandths(RoundThousandths(ParseDecimal(info.billing).value));
    assert m == MonthDay(start) + RangeSeparator + MonthDay(shown) + AmountIntro + total + CurrencySuffix;
    SlicesOfMessage(MonthDay(start), MonthDay(shown), total, m);
  }

  /** The start's month and day, the separator, the fixed words and the suffix. */
  lemma MessageFrame(info: BillingInfo)
    requires FormatBillingMessage(info).Some?
    ensures var m := FormatBillingMessage(info).value;
            var start := ParseIso(info.start).value;
            && ParseMonthDay(m[..5]) == Some((start.month, start.day))
            && m[5..EndDayAt] == RangeSeparator
            && m[IntroAt..AmountAt] == AmountIntro
            && EndsWith(m, CurrencySuffix)
  {
    MessageParts(info);
    MonthDayRoundTrip(ParseIso(info.start).value);
  }

  /** The shown end day is the calendar day before the exclusive end. */
  lemma MessageEndDay(info: BillingInfo)
    requires FormatBillingMessage(info).Some?
    ensures var m := FormatBillingMessage(info).value;
            var end := ParseIso(info.end).value;
            exists shown: Date ::
              && Valid(shown)
              && Ordinal(shown) + 1 == Ordinal(end)
              && ParseMonthDay(m[EndDayAt..IntroAt]) == Some((shown.month, shown.day))
  {
    var m := FormatBillingMessage(info).value;
    var end := ParseIso(info.end).value;
    var shown := PrevDay(end).value;
    MessageParts(info);
    MonthDayRoundTrip(shown);
    PrevDayIsPredecessor(end);
    assert ParseMonthDay(m[EndDayAt..IntroAt]) == Some((shown.month, shown.day));
  }

  /** The amount text has three fractional digits and reads back as the
      nearest thousandths count (ties to even) with the input's sign. */
  lemma MessageAmount(info: BillingInfo)
    requires FormatBillingMessage(info).Some?
    ensures var m := FormatBillingMessage(info).value;
            var amount := ParseDecimal(info.billing).value;
            var text := m[AmountAt..|m| - |CurrencySuffix|];
            ShowsAmount(amount, text)
  {
    MessageParts(info);
    var m := FormatBillingMessage(info).value;
    AmountText(ParseDecimal(info.billing).value, m[AmountAt..|m| - |CurrencySuffix|]);
  }

  /** `text` shows `amount` as `:.3f` does after rounding: a leading `-`
      exactly for a negative amount, an unpadded whole part, a point and
      three digits; read back, it is the nearest thousandths count (ties to
      even) with the amount's sign. */
  ghost predicate ShowsAmount(amount: Decimal, text: string) {
    && |text| >= 5 && text[|text| - 4] == '.'
    && ParseDecimal(text).Some?
    && ParseDecimal(text).value.scale == 3
    && ParseDecimal(text).value.negative == amount.negative
    && IsNearestEven(amount, ParseDecimal(text).value.mantissa)
    && (text[0] == '-' <==> amount.negative)
    && var w := text[(if amount.negative then 1 else 0)..|text| - 4];
       |w| >= 1 && AllDigits(w) && (|w| > 1 ==> w[0] != '0')
  }

  /** What the rendered amount of a parsed value looks like and reads back as. */
  lemma AmountText(amount: Decimal, text: string)
    requires text == RenderThousandths(RoundThousandths(amount))
    ensures ShowsAmount(amount, text)
  {
    RenderRoundTrip(RoundThousandths(amount));
  }

  /** The message reads back as: the start's month and day; the separator;
      the month and day of the calendar day before the end (one day number
      earlier, across month, year and leap-day boundaries); the fixed
      words; the amount with exactly three fractional digits, carrying the
      sign of the input and the nearest thousandths count (ties to even);
      and the currency suffix. */
  lemma MessageLayout(info: BillingInfo)
    ensures FormatBillingMessage(info).Some? ==>
            var m := FormatBillingMessage(info).value;
            var start := ParseIso(info.start).value;
            && ParseMonthDay(m[..5]) == Some((start.month, start.day))
            && m[5..EndDayAt] == RangeSeparator
            && m[IntroAt..AmountAt] == AmountIntro
            && EndsWith(m, CurrencySuffix)
    ensures FormatBillingMessage(info).Some? ==>
            var m := FormatBillingMessage(info).value;
            var end := ParseIso(info.end).value;
            exists shown: Date ::
              && Valid(shown)
              && Ordinal(shown) + 1 == Ordinal(end)
              && ParseMonthDay(m[EndDayAt..IntroAt]) == Some((shown.month, shown.day))
    ensures FormatBillingMessage(info).Some? ==>
            var m := FormatBillingMessage(info).value;
            var amount := ParseDecimal(info.billing).value;
            var text := m[AmountAt..|m| - |CurrencySuffix|];
            ShowsAmount(amount, text)
  {
    if FormatBillingMessage(info).Some? {
      MessageFrame(info);
      MessageEndDay(info);
      MessageAmount(info);
    }
  }
}
