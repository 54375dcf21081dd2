# Billing notifier: verified model of the cost window and the Slack message

The repository is an AWS Lambda (`billing/app.py`) that asks Cost Explorer for
the current month's total and per-service unblended cost, formats a short
Japanese summary and posts it to a Slack webhook. This project models, in
Dafny, the two deterministic parts of it and proves what they promise:

- **the query window** (`calendar.dfy`, `cost_query.dfy`): dates as Python's
  `datetime.date` holds them (year 1 to 9999, Gregorian leap years),
  `get_first_day`, `get_last_day`, `relativedelta(months=1)` with its day
  clamp, the ISO text `str(date)` sent to Cost Explorer, and the window
  `[first day of this month, first day of next month)` that both queries use;
- **the message** (`cost_query.dfy`, `message.dfy`): the loop of
  `query_service_cost` that turns the grouped response into
  `{service, billing}` records, and `generate_message`, which builds the title
  line, the account line and one line per service whose amount rounded to
  cents is not zero, and joins them with newlines.

`decimal_text.dfy` holds the digit formatting shared by dates and amounts;
`wrappers.dfy` holds `Option` and `Result`; `scenarios.dfy` holds concrete
instances (a February, a December and a January 31 reference date; a suppressed
service; a one-service message).

Modelling choices:

- The reference date (`TODAY`) is a parameter. Every date argument is
  required to be `Valid`, as every `datetime.date` object is.
- `TODAY + relativedelta(months=1)` in December of year 9999 gives year
  10000, which `date.replace` rejects with `ValueError`; the model returns
  `None` there, and the window and both requests with it.
- Amounts are the exact `real` value of the amount string. `round(x, 2)` is
  `Round2`: the nearest whole cent, ties to the even cent, which is what
  CPython's `round` does on the exact value of a float.
- Reading a response raises in Python (`IndexError`, `KeyError`) when
  `ResultsByTime` is empty, a metric is missing or a group has no keys; the
  model returns a `QueryError` naming the first malformed group.
- Lines are a datatype (`Title`, `Account`, `Service`) rendered to text by
  `Render`, with the source's Japanese wording; amounts are written by
  `FormatCents` as `:.2f` writes a value rounded to cents.

## Model

| member | source | states |
|---|---|---|
| `Calendar.DaysInMonth` | billing/app.py:88-89 | `calendar.monthrange(y, m)[1]`: 31 for January, March, May, July, August, October, December; 30 for April, June, September, November; 29 for February in a Gregorian leap year, otherwise 28 |
| `Calendar.YearLength` | billing/app.py:88-89 | February has 29 days exactly in leap years, and the twelve month lengths add up to 366 in a leap year and 365 otherwise |
| `Calendar.FirstDay` | billing/app.py:84-85 | `get_first_day` gives a valid date in the same year and month with day 1, and no valid date of that month lies before it |
| `Calendar.LastDay` | billing/app.py:88-89 | `get_last_day` gives a valid date in the same year and month whose day is the month's length; no valid date of that month lies after it and the next day is not a valid date |
| `Calendar.AddOneMonth` | billing/app.py:37 | `date + relativedelta(months=1)`: fails exactly for December of year 9999; otherwise a valid date in the next month (December rolls to January of the next year), keeping the day when it exists there and clamping to that month's last day when it does not |
| `Calendar.IsoFormat` | billing/app.py:36-37 | `str(date)`: ten characters, dashes at positions 4 and 7 and digits everywhere else (its inverse is `ParseIso`, see `IsoRoundTrip`) |
| `Calendar.IsoRoundTrip` | billing/app.py:36-37 | the text `str(date)` that the queries send reads back as the same date |
| `Calendar.IsoInjective` | billing/app.py:36-37 | distinct dates give distinct query texts |
| `CostQuery.QueryWindow` | billing/app.py:36-37 | the window exists unless the month addition fails; its start is day 1 of the reference month, its end day 1 of the next month (January of year+1 after December); both valid, start before end, start at or before the reference date and the reference date before end |
| `CostQuery.WindowIsTheMonth` | billing/app.py:36-37 | a valid date lies in [start, end) exactly when it is in the reference date's year and month |
| `CostQuery.WindowIgnoresDay` | billing/app.py:37 | any two reference dates of the same month give the same window, so the day clamp of `relativedelta` never shows |
| `CostQuery.WindowsTile` | billing/app.py:36-37 | the window of the following month starts on the day this window ends, so consecutive half-open windows meet without gap or overlap |
| `CostQuery.TotalCostRequest` | billing/app.py:35-48 | the total query exists exactly when the window does; its start and end texts denote the window's dates; monthly granularity, the `UnblendedCost` metric, no grouping |
| `CostQuery.ServiceCostRequest` | billing/app.py:52-71 | the service query exists exactly when the window does; its start and end texts denote the window's dates; monthly granularity, the `UnblendedCost` metric, grouped by the SERVICE dimension |
| `CostQuery.SameTimePeriod` | billing/app.py:36-37 | both queries exist together and are equal except for the grouping: the same period, granularity and metric |
| `CostQuery.TotalCost` | billing/app.py:49 | the total metric of the first time result; an empty `ResultsByTime` or a missing `UnblendedCost` total is an error |
| `CostQuery.ServiceRecords` | billing/app.py:73-81 | an empty `ResultsByTime` is an error; otherwise success exactly when every group has the metric and a key, and then one record per group, in response order, with the group's first key and its amount; on failure the error names the first malformed group and whether its metric or its key is missing |
| `Message.Round2` | billing/app.py:94 | `round(x, 2)` in cents: within half a cent of the amount, and an exact half cent goes to the even cent |
| `Message.Round2OfCents` | billing/app.py:101 | an amount already in whole cents rounds to itself |
| `Message.Round2Zero` | billing/app.py:101-102 | an amount rounds to zero exactly when it lies in [-0.005, 0.005], the boundary of suppression |
| `Message.FormatCentsShape` | billing/app.py:96-103 | the `:.2f` text of an amount: a minus sign exactly when it is negative, a first digit that is `0` only when the amount is under one unit, a point followed by two digits, no newline |
| `Message.FormatCentsRoundTrip` | billing/app.py:96-103 | the `:.2f` text of a rounded amount reads back as the same number of cents |
| `Message.Render` | billing/app.py:96-103 | the three f-strings: the title is `今月のAWS請求額は ` + amount text + `" " + unit + "です。"`, the account line `アカウントID: ` + id, a service line ` ・` + name + `": "` + amount text + `" " + unit`; a rendered line holds no newline unless the unit, id or name it carries does |
| `Message.Join` | billing/app.py:105 | `'\n'.join(lines)` of a non-empty list begins with the first line, ends with the last, and is one newline per gap longer than the lines together |
| `Message.SplitJoin` | billing/app.py:105 | splitting `'\n'.join(lines)` at newlines gives back the lines when none of them holds a newline |
| `Message.GenerateMessage` | billing/app.py:92-105 | the message is the newline join of the rendered title line (rounded total, its unit), the account line and the service lines, built by the loop over the records |
| `Message.ServiceLinesCount` | billing/app.py:99-103 | there are as many service lines as records whose rounded amount is not zero |
| `Message.ServiceLinesShape` | billing/app.py:99-103 | every service line carries the total's unit and a non-zero rounded amount |
| `Message.ServiceLineOf` | billing/app.py:99-103 | a record whose rounded amount is not zero has its line, with its service name and rounded amount, at the position given by the number of such records before it |
| `Message.ServiceLineSource` | billing/app.py:99-103 | every service line is the line of a record whose rounded amount is not zero, standing at that record's position among such records |
| `Message.ServiceLineIff` | billing/app.py:99-103 | a service line is present if and only if some record has that service and a rounded amount that is not zero, in the total's unit |
| `Message.ServiceLinesOrdered` | billing/app.py:99-103 | for two records in input order whose rounded amounts are not zero, the line of the earlier one stands at a smaller position among the service lines than the line of the later one: input order is kept, nothing is sorted |
| `Message.MessageShape` | billing/app.py:93-105 | the message has 2 + (number of non-zero rounded services) lines; the first is the title with the rounded total and its unit, the second the account line, every later one a service line in the total's unit |
| `Message.MessageText` | billing/app.py:98-105 | split at newlines, the message text gives back its rendered lines, 2 + (number of non-zero rounded services) of them, when account id, unit and service names hold no newline |
| `Scenarios.FebruaryWindow` | billing/app.py:36-37 | 2024-02-15 gives the window [2024-02-01, 2024-03-01); February has 29 days in 2024 and 2000, 28 in 2023 and 1900 |
| `Scenarios.DecemberWindow` | billing/app.py:36-37 | 2024-12-10 gives the window [2024-12-01, 2025-01-01): the year rolls over |
| `Scenarios.DecemberRequest` | billing/app.py:36-48 | for 2024-12-10 the total query asks for "2024-12-01" to "2025-01-01", monthly, `UnblendedCost`, no grouping |
| `Scenarios.MonthEndWindow` | billing/app.py:37 | January 31 plus one month is February 29 in 2024 and February 28 in 2023; the window of 2024-01-31 is [2024-01-01, 2024-02-01); December 9999 has no window |
| `Scenarios.SuppressedService` | billing/app.py:93-103 | total 123.456 USD with EC2 at 0.001 and S3 at 10.005 gives the title with 123.46, the account line, and only the S3 line, at 10.00 for the exact amount (Python's float gives 10.01, see Left out) |
| `Scenarios.SingleServiceTexts` | billing/app.py:96-103 | the title, account and Lambda lines render as `今月のAWS請求額は 42.50 USDです。`, `アカウントID: 123456789012` and ` ・Lambda: 42.50 USD` |
| `Scenarios.SingleServiceMessage` | billing/app.py:92-105 | account 123456789012 with total 42.50 USD and Lambda at 42.50 gives exactly the three lines title, account id and ` ・Lambda: 42.50 USD`, joined by newlines |

## Left out

- `post_slack` (billing/app.py:13-22): an HTTP POST of `{'text': message}` whose failure is only printed; I/O.
- `create_aws_sessions`, `query_account_id` and the `get_cost_and_usage` calls (billing/app.py:25-32, 39-48, 56-71): foreign boto3 calls; the requests are modelled as values, the responses are parameters.
- `lambda_handler` (billing/app.py:108-115): sequencing of the above with I/O.
- The environment variable and the clock (billing/app.py:9-10): the webhook URL is not modelled and the reference date is a parameter. In the source `TODAY` is read once when the module loads, so a warm Lambda container reused across a month boundary would query the month it started in; the model does not capture this.
- The trailing string literal (billing/app.py:118-121): not code.
- `float(...)` parsing (billing/app.py:94, 101): amounts are the exact decimal value, while Python first rounds the string to the nearest binary float. For an amount at or within float precision of a half cent, Python's result follows that float and can differ from `Round2`: `"10.005"` gives 10.01 in Python (the float is just above 10.005) and 10.00 in the model, and `"10.00499999999999995"` gives 10.01 in Python and 10.00 in the model. `float` raising on a malformed amount is not modelled either.
- Message.FormatCents: a negative total that rounds to zero is written `0.00`, where Python writes `-0.00` for the float `-0.0`; whole cents do not carry the sign of zero. Service lines are unaffected, since a zero amount gets no line.
- Calendar.AddOneMonth: only `relativedelta(months=1)`, the one form the source uses, is modelled.
- dateutil's `relativedelta` itself is not part of this model; `AddOneMonth` follows its documented behaviour (next month, day clamped to that month's length, `date.replace` rejecting year 10000).
