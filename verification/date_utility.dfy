/** The two date helpers of the Lambda, with the clock's reading passed in
    as `today` instead of calling `date.today()`. */
module DateUtility {
  import opened Optional
  import opened Calendar

  /** `get_first_day_of_month`: the first of today's month, `YYYY-MM-DD`. */
  function GetFirstDayOfMonth(today: Date): (s: string)
    requires Valid(today)
    ensures ParseIso(s) == Some(Date(today.year, today.month, 1))
  {
    IsoRoundTrip(FirstOfMonth(today));
    IsoFormat(FirstOfMonth(today))
  }

  /** `get_today_date`: today, `YYYY-MM-DD`. */
  function GetTodayDate(today: Date): (s: string)
    requires Valid(today)
    ensures ParseIso(s) == Some(today)
  {
    IsoRoundTrip(today);
    IsoFormat(today)
  }
}
