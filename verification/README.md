# AWS cost notification — a Dafny model

This project models the core of a scheduled AWS cost-notification function
and of two custom checkov policy checks from the same repository.

The Lambda function runs four stages in a fixed order:

1. It computes a reporting window: from the first of this month to today, or
   the whole previous month when today is the first.
2. It asks Cost Explorer for the cost over that window.
3. It formats a Japanese one-line message. The message shows the start as
   `MM/DD`, the day before the exclusive end as `MM/DD`, and the amount with
   three decimals.
4. It reads the LINE channel id and access token from a settings table and
   pushes the message to the LINE Messaging API.

Any stage that yields nothing stops the run with status 500 and that stage's
text. An exception that reaches the handler gives 500 with `Error: …`.
Status 200 comes only when every stage succeeds.

The two checkov checks (ECR repository policies and IAM policies) pass a
resource only when its `policy` attribute is a string that references an
`aws_iam_policy_document` data source's `.json` attribute. A list-wrapped
value is unwrapped once.

Modules:

- `Optional`: the `Option` type that stands for Python's `None` results.
- `Text`: digit strings, zero-padded rendering, substring search, `endswith`.
- `Calendar`: Gregorian dates in Python's range (years 1 to 9999). It covers
  validity, leap years, day numbers (`toordinal`), the previous day, and the
  `YYYY-MM-DD` and `MM/DD` renderings with their parsers.
- `Decimal`: the amount as an exact decimal, half-to-even rounding to
  thousandths, and three-decimal rendering.
- `DateUtility`, `CostExplorer`, `MessageFormatting`, `LineNotification`,
  `Handler`: the sections of `application/codes/lambda_function.py`.
  `Handler` is a state machine. Its phases are
  `Start → Billed → Formatted → Tokened → Sent`, or `Failed(stage, body)`,
  and it records the stages entered so far.
- `MessageExamples`: worked messages with their exact text.
- `PolicyConf`, `EcrPolicyDataSource`, `IamPolicyDataSource`: the checkov
  checks.

The outside world enters as parameters:

- the clock's date is `today`;
- Cost Explorer is a function from the query sent to its answer;
- the settings table is a map from item key to the item's attributes;
- the LINE API is a function from the push request to its reply;
- exceptions that reach the handler are a map from stage to exception text.

Two behaviours of the code worth knowing:

- The credentials step reads the item's `value` attribute with `.get`. An
  item without `value` does not fail the step. It yields a credential field
  holding `None`, and the request then carries `Bearer None` or a null
  recipient. The step also does not reject empty strings.
- The amount is rounded once, when the message is formatted. The billing
  stage passes Cost Explorer's amount text through unchanged.

## Model

| member | source | states |
|---|---|---|
| `DateUtility.GetFirstDayOfMonth` | application/codes/lambda_function.py:238-244 | The text parses back to the first day of today's month. |
| `DateUtility.GetTodayDate` | application/codes/lambda_function.py:247-253 | The text parses back to today. |
| `CostExplorer.CalculateBillingDateRange` | application/codes/lambda_function.py:104-123 | There is no window exactly when today is 0001-01-01, because stepping back a day overflows there. Otherwise the end parses back to today. |
| `CostExplorer.RangeWhenNotFirst` | application/codes/lambda_function.py:111-120 | On any day but the 1st, the window starts on the 1st of today's month. It spans `today.day - 1` day numbers. |
| `CostExplorer.RangeWhenFirst` | application/codes/lambda_function.py:114-118 | On the 1st, the window starts on the 1st of the previous month. In January that is December 1st of the previous year. It spans exactly that month's length. |
| `CostExplorer.RangeOrdered` | application/codes/lambda_function.py:111-120 | The start is strictly before the end, both in calendar order and by day number. |
| `CostExplorer.FetchAwsBillingInfo` | application/codes/lambda_function.py:70-101 | It returns a record exactly when four things hold: a window exists, the call answers, `ResultsByTime` is present and non-empty, and its first bucket has the metric. The record then carries that bucket's period and the metric's amount. It returns nothing on 0001-01-01. |
| `Calendar.PrevDay` | application/codes/lambda_function.py:140 | The result is absent exactly for 0001-01-01. Otherwise it is a valid date. |
| `Calendar.PrevDayIsPredecessor` | application/codes/lambda_function.py:140 | The previous day has a day number one lower. It is before the date, and no valid date lies between the two. This holds across month, year and leap-day boundaries. |
| `Calendar.OrdinalOrder` | application/codes/lambda_function.py:111-120 | Day numbers order dates exactly as the calendar does. Two valid dates with equal day numbers are the same date. |
| `Calendar.OrdinalAtLeastOne` | application/codes/lambda_function.py:140 | Every valid date has day number at least 1. Day 1 is exactly 0001-01-01. |
| `Calendar.IsoFormat` | application/codes/lambda_function.py:244 | `isoformat()` gives ten characters with `-` at positions 4 and 7. With `IsoRoundTrip` the text parses back to the date, and with `IsoCanonical` it is the only text that parses to that date. |
| `Calendar.ParseIso` | application/codes/lambda_function.py:138-139 | `strptime(…, '%Y-%m-%d')` accepts only ten-character `YYYY-MM-DD` texts, and only ones naming a valid date. By `IsoCanonical` every accepted text is the rendering of its date, and by `IsoRoundTrip` every rendering is accepted. |
| `Calendar.MonthDay` | application/codes/lambda_function.py:138-140 | `strftime('%m/%d')` gives five characters with `/` in the middle. By `MonthDayRoundTrip` it reads back as the date's month and day. |
| `Calendar.IsoRoundTrip` | application/codes/lambda_function.py:116 | Parsing a date's `YYYY-MM-DD` rendering gives the date back. |
| `Calendar.IsoCanonical` | application/codes/lambda_function.py:138-139 | Every string the date parser accepts is the rendering of the date it parsed to. |
| `Calendar.IsoInjective` | application/codes/lambda_function.py:114 | Two ISO strings are equal exactly when their dates are equal, so the string comparison is a date comparison. |
| `Calendar.MonthDayRoundTrip` | application/codes/lambda_function.py:138-140 | The `MM/DD` text reads back as the date's month and day. |
| `Decimal.ParseDecimal` | application/codes/lambda_function.py:142 | The text parses exactly when, after an optional sign, it is digits with at most one point and at least one digit in all. The value is then the digits on both sides of the point read as one number, scaled by the count of fractional digits. It is negative exactly when the text starts with `-`. |
| `Decimal.RoundThousandths` | application/codes/lambda_function.py:142 | The result keeps the sign. Its count of thousandths is within half a thousandth of the value. On an exact tie the count is even. |
| `Decimal.RoundingIsUnique` | application/codes/lambda_function.py:142 | Exactly one count meets the nearest, ties-to-even condition. |
| `Decimal.RenderThousandths` | application/codes/lambda_function.py:144 | The text ends in a point and exactly three digits. It starts with `-` exactly for a negative amount, and there is no other sign. The whole part is at least one digit, has no leading zero unless it is the single digit `0`, and is the whole thousands of the count. |
| `Decimal.RenderRoundTrip` | application/codes/lambda_function.py:144 | Reading the rendered amount back gives the same sign and count of thousandths, at scale 3. |
| `MessageFormatting.FormatBillingMessage` | application/codes/lambda_function.py:128-147 | A message exists exactly when four things hold: the start parses, the end parses, the end has a day before it, and the amount parses. Otherwise the result is `None` rather than an exception. |
| `MessageFormatting.MessageLayout` | application/codes/lambda_function.py:138-144 | The message reads back in order: the start's `MM/DD`, then `～`, then the `MM/DD` of the date one day number before the end, then `の請求額は、`, then the amount with exactly three decimals, and finally ` USDです。`. The amount keeps the input's sign and carries its nearest, ties-to-even thousandths. It starts with `-` exactly for a negative amount, and its whole part has no zero-padding. |
| `MessageExamples.WholeAmount` | application/codes/lambda_function.py:142-144 | The whole-number amount `42` reads with no fractional digits and shows as `42.000`. |
| `MessageExamples.JuneMessage` | application/codes/lambda_function.py:138-144 | Start 2024-06-01, end 2024-06-10 and amount `10.5` give `06/01～06/09の請求額は、10.500 USDです。`. |
| `MessageExamples.LeapDayMessage` | application/codes/lambda_function.py:138-144 | End 2024-03-01 shows `02/29`, and `12.3456` shows `12.346`. |
| `MessageExamples.UnparseableAmountGivesNothing` | application/codes/lambda_function.py:142-147 | A non-numeric amount gives no message. |
| `MessageExamples.FirstRepresentableEndGivesNothing` | application/codes/lambda_function.py:139-147 | End 0001-01-01 gives no message. |
| `LineNotification.FetchLineTokens` | application/codes/lambda_function.py:152-189 | It fails exactly when either key's item is missing. Otherwise `channel_id` is the first item's `value` and `access_token` is the second's. Both can be absent. The loop gives the same result as the one-step reference `LineTokens`. |
| `LineNotification.BuildPushRequest` | application/codes/lambda_function.py:203-216 | The request goes to the push URL and carries the message text and the channel id as recipient. The authorisation is `Bearer ` followed by the token, and `Bearer None` when the item had no `value`, as an f-string prints `None`. |
| `LineNotification.SendLineNotification` | application/codes/lambda_function.py:192-233 | It succeeds exactly when the API answers status 200 with a JSON body. A transport error, a non-JSON body or any other status gives `None`. |
| `Handler.HandlerReply` | application/codes/lambda_function.py:31-65 | The status is 200 or 500. It is 200 exactly when the run ends in `Sent`, and then the body is the success text. A 500 carries the failed phase's body. |
| `Handler.PipelineKeeps` | application/codes/lambda_function.py:31-65 | Four steps always end in `Sent` or `Failed`, with the stage order, failure bodies and escaped exceptions accounted for. |
| `Handler.LambdaHandler` | application/codes/lambda_function.py:21-65 | With this program's stages wired in, the reply is 200 exactly when every stage succeeds. It equals the straight-line transcription of the handler. |
| `Handler.LambdaHandlerStages` | application/codes/lambda_function.py:31-61 | On 0001-01-01 with no exception the reply is the billing failure. A 200 reply means Cost Explorer gave a record, the record formatted, and both settings items exist. |
| `Handler.SucceedsIffAllStagesSucceed` | application/codes/lambda_function.py:31-61 | Status 200 holds exactly when no exception escaped and billing, format, tokens and send each yielded a value. All four stages were then entered in order. |
| `Handler.ShortCircuit` | application/codes/lambda_function.py:31-65 | The stages entered are always a non-empty prefix of billing, format, tokens, send. A failing stage is the last one entered. Its body is that stage's text or `Error: ` followed by the exception's text. |
| `Handler.BillingFailureStopsPipeline` | application/codes/lambda_function.py:33-36 | When billing yields nothing, only billing was entered and the reply is 500 `Failed to get billing information`. |
| `Handler.ExceptionStopsPipeline` | application/codes/lambda_function.py:63-65 | An exception at a stage the run reaches gives 500 with `Error: ` and its text. No later stage is entered. |
| `Handler.PipelineMatchesScript` | application/codes/lambda_function.py:31-65 | The state machine gives the same reply as the straight-line handler on every combination of stage outcomes and exceptions. |
| `Text.Contains` | checkov-custom-checks/checks/ecr_policy_data_source.py:48 | The scan says yes exactly when the needle occurs at some position of the text. |
| `EcrPolicyDataSource.ScanResourceConf` | checkov-custom-checks/checks/ecr_policy_data_source.py:24-51 | The result is always PASSED or FAILED. A missing `policy` fails. The result is PASSED exactly when `policy` is a string, or a list whose first element is a string, and that string contains `data.aws_iam_policy_document.` and ends with `.json`. |
| `EcrPolicyDataSource.EmptyListFails` | checkov-custom-checks/checks/ecr_policy_data_source.py:37-39 | An empty list fails. |
| `EcrPolicyDataSource.OnlyFirstElementCounts` | checkov-custom-checks/checks/ecr_policy_data_source.py:37-40 | Elements after the first never change the verdict. A one-element list holding a string judges like the bare string. |
| `EcrPolicyDataSource.NestedListFails` | checkov-custom-checks/checks/ecr_policy_data_source.py:37-44 | A list whose first element is a list fails, since only one level is unwrapped. |
| `IamPolicyDataSource.ScanResourceConf` | checkov-custom-checks/checks/iam_policy_data_source.py:22-49 | Same characterisation as the ECR check: always PASSED or FAILED, and PASSED exactly for a referencing string after one level of unwrapping. |
| `IamPolicyDataSource.EmptyListFails` | checkov-custom-checks/checks/iam_policy_data_source.py:35-37 | An empty list fails. |
| `IamPolicyDataSource.OnlyFirstElementCounts` | checkov-custom-checks/checks/iam_policy_data_source.py:35-38 | Elements after the first never change the verdict. |
| `IamPolicyDataSource.NestedListFails` | checkov-custom-checks/checks/iam_policy_data_source.py:35-42 | A nested list fails. |
| `IamPolicyDataSource.AgreesWithEcrCheck` | checkov-custom-checks/checks/iam_policy_data_source.py:22-49 | The IAM and ECR checks give the same verdict on every configuration. |

## Left out

- The Cost Explorer call (`boto3` client, lines 77-98). It is a parameter that maps the query to an answer: a failed call, or an optional `ResultsByTime` list of buckets.
- DynamoDB `get_item` and `TypeDeserializer` (lines 161-181) are replaced by a map from item key to attributes. A transport error from `get_item` is not modelled separately. In the source it ends in the same `None` as a missing item.
- `LineNotification.FetchLineTokens`: attribute values are modelled as strings. The deserializer can also produce numbers, sets or maps.
- The LINE API call (`requests.post`, lines 203-230) is a parameter that maps the request to a reply: a transport error, or a status with a JSON/non-JSON flag. The reply body's contents and the JSON encoding of the request are not modelled.
- `date.today()` is the `today` parameter. Environment variables are parameters too: the metric name is `metric`, and the table name is implicit in the table map. The `Logger` and all log output are left out.
- Where an exception that reaches the handler comes from is not modelled. In the source every stage catches its own exceptions, so only the handler's own statements can raise. The model takes a stage-to-text map of such exceptions.
- `Handler.HandlerReply`: the handler's `if not …` tests falsiness. The model treats only `None` as a failure. An empty message cannot occur, because every formatted message has its fixed parts.
- `Decimal.RoundThousandths`: rounds the decimal value as written, half to even. It does not round the nearest binary double as `round(float(x), 3)` does. The two differ on ties at the fourth decimal that binary cannot represent exactly. For `0.1235` the nearest double lies just below the tie, so Python prints `0.123`, while the model rounds the exact tie to even and gives `0.124`. They also differ on amounts beyond double precision. This is floating point and is deliberately not reproduced.
- `Decimal.ParseDecimal`: accepts an optional sign followed by digits with at most one point, with at least one digit in all (so `42`, `12.` and `.5` parse, while `.` does not). Python's `float()` also accepts surrounding whitespace, digit underscores, exponents, `inf` and `nan`. The model reports those as unparseable.
- `Calendar.ParseIso`: accepts the zero-padded `YYYY-MM-DD` form only. `strptime('%Y-%m-%d')` also accepts one-digit months and days such as `2024-3-1`. Cost Explorer's period strings are zero-padded.
- `CostExplorer.FetchAwsBillingInfo`: a bucket's `TimePeriod` and `Amount` fields are taken to be present. In the source, a bucket without them raises `KeyError`, which is caught and ends in `None`.
- The checkov constructors, check names, categories and registration are not modelled. Neither is checkov's dispatch by resource type.
