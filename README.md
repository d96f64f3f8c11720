# Transaction ledger engine — a Dafny model

This project models the core of a small bookkeeping application's
transaction ledger, and proves properties of that model:

- **Row construction** (`TransactionService.php`):
  - resolving the two accounts and the contractor of an expense, income or transfer;
  - creating the contractor's zero-balance account in the right currency when it has none;
  - expanding a recurring request into dated copies for the rest of its year;
  - building the realised copy of a planned row;
  - the annual rollover of last year's recurring groups;
  - the chart buckets.
- **State changes** (`TransactionController.php`):
  - `store` books the rows and moves the first row's amount between the two account totals;
  - `updateStatus` completes or disables a planned row.
- **Action buttons** (`Transaction.php`) that a row's JSON form carries.

Files and modules:

| file | module | what it holds |
|---|---|---|
| `wrappers.dfy` | `Wrappers` | `Option` and `Result` |
| `calendar.dfy` | `Calendar` | civil dates as validated year/month/day. Day numbers count from 0001-01-01. Weekdays have 0 for Sunday. `AddDays`, and `AddMonths`/`OverflowDate` with PHP's day overflow into the next month. `CreateFromDate` is Carbon's `createFromDate`, which throws on a month or day of more than two digits. The week/month/year step of a series. |
| `records.dfy` | `Records` | accounts, transaction rows, the validated request, the read-only lookups, PHP truthiness |
| `storage.dfy` | `Storage` | class `Database`. It holds the accounts and transactions tables as maps with auto-increment counters. Its methods stand for Eloquent's create, insert, update and delete. |
| `service.dfy` | `TransactionService` | `getModel`, `getCreateAddData`, `getCreateRepeatData`, `prepareDataForCreate`, `prepareDataForComplete`, `cronCreatePlannedItems` |
| `chart.dfy` | `Chart` | `prepareDataForChart`, `buildDataStructure`, `buildReturnData`, `buildDataFormat`, PHP `intval` |
| `controller.dfy` | `Controllers` | the balance settlement of `store`, and class `TransactionController` with `Store` and `UpdateStatus` |
| `resource.dfy` | `TransactionResource` | the `$actions` rule and `toArray` |

How each kind of code is modelled:

- **Pure field logic is a function.** `getCreateAddData` becomes a function over a snapshot of the accounts table. It returns the row, plus the account it has to create, if any. `PrepareDataForCreate` is the method that creates that account and then runs the expansion loop.
- **Loops are methods.** `getCreateRepeatData`'s while loop, the rollover's foreach, the bucket loop and the two by-reference rewrite loops each become a method. Each loop method is proved equal to a recursive specification function, and that function's properties are proved as lemmas.
- **Outside inputs are parameters:**
  - `Carbon::now()` is `now`/`today`;
  - `Str::random(32)` is `code`, a 32-character parameter;
  - the rollover's grouped query is a given list of representative rows;
  - the chart's date format is a given key function.
- **Exceptions become error results.** A thrown exception or error becomes a `Failure` or a `false` result. Nothing runs in a database transaction, so a write made before the failure stays. The model keeps such writes.

Behaviours of the code that the model keeps as written:

- **Stale snapshot in `store`.** Both totals are read once, before either write. `SelfTransferLosesDebit` shows the effect: a transaction with `account_from_id == account_to_id` ends with the total at `old + amount`.
- **Credit fails on an exchange-rate transfer.** Suppose a cross-currency transfer takes its rate from the stored exchange rate. Its row then carries no `convertation_rate`, and the credit divides by it. `ExchangeRateTransferNeverCredits` shows the result: the rows are inserted and the source is debited the converted amount, but the destination is never credited.
- **Rollover dates.** The start date of each group is built in `now.year - 1`. Only the weekday of January 1st comes from `now.year`. A yearly series restarts on the day of the month numbered by the representative's weekday, so a Sunday gives day 0, the last day of the previous month. `WeeklyRolloverDate`, `MonthlyRolloverDate` and `YearlyRolloverDate` state the dates that result.
- **A representative without a unit.** The rollover's selection can include a planned row that is not repeated. There is then no step method, the run fails, and nothing is inserted. `CronCreatePlannedItems` states this.
- **Long intervals break the rollover.** `createFromDate` writes its arguments as text and reads them back with two-digit month and day fields. A weekly group with `repeated_every` ≥ 15 asks for January day 100 or more, and a monthly group with `repeated_every` ≥ 100 for month 100 or more. Either throws, and the whole run inserts nothing. `RolloverStartDefined` states the bounds.
- **An unknown chart period over an empty period.** `buildDataStructure` only uses the step method inside its loop. An unknown `period_type` therefore fails only when `period_from` is not after `period_to`; otherwise the result is an empty list.
- **The amount has no value bound.** The request rule `between:0,999999.99` for `amount` comes without `numeric`, so it bounds the length of the text, not the amount.
- **The rate column is copied as given.** `getCreateAddData` copies `convertation_rate` from the request as it is. It does not set it to 1 for same-currency rows.

## Model

| member | source | states |
|---|---|---|
| TransactionService.GetModel | TransactionService.php:43-59 | The Office, Customer and User widgets map to their model classes, and every other widget maps to none. |
| TransactionService.FirstAccountFrom | TransactionService.php:38-40 | The result is the lowest id whose account the contractor owns in the given currency. None means the contractor has no such account. |
| TransactionService.FirstAccountAfterCreate | TransactionService.php:85-91 | If the contractor has no account in the currency, the zero-balance account created under the next id is the first one found. |
| TransactionService.GetContractor | TransactionService.php:33-41 | Success exactly when the category exists, its widget names a model, and the contractor id exists for that model. The result is that entity. |
| TransactionService.TransferRate | TransactionService.php:116-121 | The supplied convertation_rate is used when present. Otherwise the destination currency's exchange rate is used, and there is none when that rate is missing. |
| TransactionService.CreateAddData | TransactionService.php:61-131 | Success exactly when the source account, the type, the category and contractor (or transfer account, rate and owner) resolve. The request's columns are copied. status is Pending iff planned is truthy, else Complete. Expense sets from := account_id; income sets to := account_id. The other side is the contractor's first account in account_id's currency, or a new zero-balance account under the next id only when it has none. A transfer uses the two given accounts, rescales the amount by the rate when the currencies differ, and takes the destination's owner as contractor. Both account ids exist afterwards. |
| TransactionService.SecondCallReusesAccount | TransactionService.php:84-107 | Once the created account is stored, resolving the same request again creates nothing and yields the same row. |
| Calendar.OverflowDate | TransactionService.php:201-214 | A month in 1..12 and a day within that month give exactly that date. |
| Calendar.OverflowDateNumber | TransactionService.php:201-214 | Otherwise month and day overflow: the date lies d - 1 days after the first of the month that month offset m lands in. |
| Calendar.CreateFromDate | TransactionService.php:201-214 | A date exactly when month and day are readable, i.e. in 0..99. That date is the overflowing date. |
| Calendar.AddMonths | TransactionService.php:142-143 | The same day in the month n months on, when that month has the day. |
| Calendar.AddMonthsNumber | TransactionService.php:142-146 | Otherwise the day overflows into the following month. |
| Calendar.StepIncreases | TransactionService.php:139-148 | addWeeks, addMonths and addYears by every ≥ 1 move a date strictly forward. |
| Calendar.WeekStepKeepsWeekday | TransactionService.php:139-140 | A weekly step keeps the weekday. |
| TransactionService.SeriesEnds | TransactionService.php:153-157 | A series is empty exactly when its start lies outside the year. Otherwise it begins at the start, and one more step past its last date leaves the year. |
| TransactionService.SeriesInYear | TransactionService.php:153-157 | Every date of a series lies in its year, and none is before the start. |
| TransactionService.SeriesSteps | TransactionService.php:153-157 | Each date of a series after the first is the previous one stepped once. |
| TransactionService.SeriesIncreasing | TransactionService.php:153-157 | The dates of a series strictly increase. |
| TransactionService.ExpansionProperties | TransactionService.php:149-157 | The expansion starts one step after D0 and each date is the previous one advanced by `every` units. The dates strictly increase, all lie in D0's year and come after D0, and one further step leaves the year. The expansion is empty exactly when the first step leaves it. |
| TransactionService.GetCreateRepeatData | TransactionService.php:133-160 | The loop returns the base row at each expansion date, Pending and planned = 1. An unknown unit fails. |
| TransactionService.PreparedRows | TransactionService.php:17-31 | A non-repeated request gives exactly [base]. A repeated one gives [base with the fresh code] followed by one row per expansion date. Every row carries that code. Each expanded row equals the first row except date, status (Pending) and planned (1). |
| TransactionService.PrepareDataForCreate | TransactionService.php:17-31 | A failed resolution leaves the database unchanged. Otherwise the result is PreparedRows of the resolved row, and exactly the needed account is created. |
| TransactionService.PrepareDataForComplete | TransactionService.php:162-177 | The 13 listed template fields are kept. amount and description are replaced only by a truthy override. status comes from the request. planned and the recurrence columns are not carried over. |
| TransactionService.DayStart | TransactionService.php:205 | dayStart lies in [2, 8] and dayStart - 1 ≡ day - dayNY (mod 7). |
| TransactionService.DayStartAligns | TransactionService.php:202-205 | In the year whose January 1st gives dayNY, January dayStart falls on the representative's weekday. |
| TransactionService.RolloverStartDate | TransactionService.php:201-216 | A yearly group, and a row without a unit, always get a start date. |
| TransactionService.RolloverStartDefined | TransactionService.php:201-212 | For a positive interval, the start date exists exactly when a weekly interval is at most 14 and a monthly one at most 99. |
| TransactionService.WeeklyRolloverDate | TransactionService.php:207-209 | A weekly group with interval ≤ 4 restarts in January of now.year - 1, on day dayStart + (every - 1)·7. |
| TransactionService.MonthlyRolloverDate | TransactionService.php:210-212 | A monthly group with interval 1..12 restarts on day dayStart of month `every` of now.year - 1. |
| TransactionService.YearlyRolloverDate | TransactionService.php:213-215 | A yearly group restarts in its month of now.year - 1, on the day numbered by its weekday. Sunday gives the last day of the month before. |
| TransactionService.GroupFromShape | TransactionService.php:228-229 | A restarted series is the start row, then the given row at each expansion date, Pending and planned. The dates strictly increase and stay in the start's year. |
| TransactionService.GroupRowsShape | TransactionService.php:217-229 | A group's rows are the representative with planned = 1, Pending and its own repeated_code, first at the start date and then at the expansion's increasing dates. |
| TransactionService.RolloverRowsPending | TransactionService.php:197-231 | Every inserted row is planned = 1, Pending, and carries the repeated_code of one of the representatives. |
| TransactionService.RolloverData | TransactionService.php:197-231 | The loop returns the groups' rows concatenated in order. It returns none exactly when a representative has no unit or an interval too long for createFromDate. |
| TransactionService.CronCreatePlannedItems | TransactionService.php:179-234 | One bulk insert of all groups' rows when every representative has a unit and a buildable start date. Otherwise nothing is inserted. Accounts are untouched. |
| Chart.ChartStep | TransactionService.php:251-272 | Each period type steps a bucket date strictly forward (day, week, month, quarter, year). |
| Chart.BucketDatesEnds | TransactionService.php:277 | The bucket dates are empty exactly when period_from is after period_to. Otherwise they start at period_from, and one step past the last is after period_to. |
| Chart.BucketDatesInPeriod | TransactionService.php:277 | Every bucket date lies between period_from and period_to. |
| Chart.BucketDatesSteps | TransactionService.php:277 | Each bucket date after the first is the previous one stepped once by the period type. |
| Chart.BucketDatesIncreasing | TransactionService.php:277 | The bucket dates strictly increase. |
| Chart.EnumerateBuckets | TransactionService.php:276-289 | The loop returns one zero bucket per bucket date, keyed by the date (with the quarter appended for quarters). |
| Chart.RequestDatesShape | TransactionService.php:273-277 | When buildDataStructure does not fail, its dates lie between period_from and period_to and strictly increase. There are none exactly when period_from is after period_to. |
| Chart.BuildDataStructure | TransactionService.php:247-290 | The defaults are the first of the month, today and the day unit. It fails exactly when an unknown period_type meets a non-empty period; an unknown one over an empty period gives no buckets. Otherwise there is one zero bucket per bucket date. |
| Chart.FirstSum | TransactionService.php:295-298 | The sum of the first group whose date_group equals the key. None exactly when no group matches. |
| Chart.FillSums | TransactionService.php:294-299 | Length and order are preserved. Each bucket takes its first matching group's sum and otherwise keeps its value. |
| Chart.LastIndexOf | TransactionService.php:307 | The last position of the character, or none when it does not occur. |
| Chart.IntVal | TransactionService.php:314 | A negative result needs a '-' as the first non-blank character. |
| Chart.FormatKey | TransactionService.php:307-314 | A formatted key is non-empty and has no '-' past its first character. |
| Chart.IntValOfIntToString | TransactionService.php:314 | intval reads back every integer's string form. |
| Chart.FormatKeyIdempotent | TransactionService.php:305-314 | Formatting a formatted key changes nothing. |
| Chart.FormatKeyOfSuffix | TransactionService.php:307-314 | A key "prefix-n" with a non-empty prefix becomes "n". |
| Chart.BuildDataFormat | TransactionService.php:303-318 | Length, order and values are preserved. Each key becomes intval of the text after its last '-', or of the whole key when there is no '-' or only one at index 0. |
| Chart.BuildReturnData | TransactionService.php:291-301 | It fails exactly when buildDataStructure does. Otherwise there is one bucket per bucket date; the key is formatted, and the value is the first matching group's sum, or 0. |
| Chart.PrepareDataForChart | TransactionService.php:236-244 | It fails exactly when buildDataStructure does. Otherwise each of the four series is buildReturnData of its own data: one bucket per bucket date, with the formatted key and the first matching group's sum, or 0. The four have the same length and the same keys. |
| Controllers.CreditRate | TransactionController.php:73-77 | The divisor is 1 for one currency, else the row's convertation_rate. None when that is missing or 0. |
| Controllers.Settle | TransactionController.php:69-80 | ok exactly when the credit's divisor exists. Only the two accounts' totals change. Currencies and owners are kept. The source disappears only when ok and the delete flag is set. |
| Controllers.SettleMovesAmount | TransactionController.php:72-77 | Between two accounts, the source loses the amount; the destination gains amount / rate, or stays unchanged when the credit fails. |
| Controllers.SameCurrencyKeepsSum | TransactionController.php:72-77 | Two distinct accounts of one currency keep the sum of their totals. |
| Controllers.SelfTransferLosesDebit | TransactionController.php:69-77 | With from == to, the line-77 write uses the total read at line 69, so the total ends at old + amount. |
| Controllers.DeleteRemovesOnlySource | TransactionController.php:78-80 | The delete flag removes only the source account, after both writes. |
| Controllers.CrossCurrencyTransferWithRate | TransactionController.php:72-77 | With a supplied rate r, the source is debited a·r and the destination is credited exactly a. |
| Controllers.ExchangeRateTransferNeverCredits | TransactionController.php:73-77 | A cross-currency transfer priced by the stored exchange rate is debited and never credited. |
| Controllers.Completed | TransactionController.php:102-106 | Exactly one new row, the realised copy. The template is marked Complete. No other row changes. |
| Controllers.DisabledTouchesOnlyGroup | TransactionController.php:108-112 | Rows outside the group are kept. No completed row of the group remains. Rows are only disabled or removed. |
| Controllers.TransactionController.Settlement | TransactionController.php:69-80 | The balance writes of store give exactly Settle's table and outcome. |
| Controllers.TransactionController.Store | TransactionController.php:63-90 | A failed preparation writes nothing. Otherwise all prepared rows are inserted, and the accounts and result are Settle's on the first row. |
| Controllers.TransactionController.UpdateStatus | TransactionController.php:92-123 | result is true exactly when the row exists, is Pending with planned = 1, and the target is Complete or Disabled. A refusal writes nothing. Complete gives Completed. Disabled gives the updateItems and forceDeleteItems effect on the row's group. |
| TransactionResource.Actions | Transaction.php:13-23 | A planned row dated today gets Approved and not Planned. A planned row on another day gets Planned and not Approved. An unplanned row gets neither. Repeated appears exactly for repeated rows, as the last element. At most 2 elements, no duplicates. |
| TransactionResource.ToArray | Transaction.php:24-41 | The listed fields are copied, status is statusValue, and actions are as above. |
| Storage.Database.CreateAccount | TransactionService.php:87-90 | The account is stored under the next id and nothing else changes. |
| Storage.Database.SetTotal | TransactionController.php:72 | Only that account's total changes. |
| Storage.Database.DeleteAccount | TransactionController.php:79 | Only that account is removed. |
| Storage.Database.Insert | TransactionController.php:68 | The rows are stored under consecutive fresh ids. |
| Storage.Database.Create | TransactionController.php:105 | The row is stored under the next id. |
| Storage.Database.SetStatus | TransactionController.php:106 | Only that row's status changes. |
| Storage.Database.UpdateItems | TransactionController.php:111 | The table becomes WithStatusChanged of the old one, and the accounts are untouched. |
| Storage.Database.ForceDeleteItems | TransactionController.php:112 | The table becomes ForceDeleted of the old one, and the accounts are untouched. |
| Storage.WithStatusChanged | TransactionController.php:111 | The group's rows with the given status get the new status, and every other row is kept. |
| Storage.ForceDeleted | TransactionController.php:112 | Only rows of the group that the criterion selects are removed. |

## Left out

- I/O and framework plumbing is not modelled: the image upload and deletion, logging, JSON responses, timestamps (`created_at`, `updated_at`), and the `index`, `delete`, import and lookup endpoints of the controller.
- TransactionData.php (query scopes) and the database-side exchange-rate sums are not part of this model.
- TransactionCreateRequest.php's rules appear only as the `ValidRequest` precondition. `every >= 1` is required explicitly, because with 0 the expansion never ends. The amount's `between` rule bounds the length of its text, which is not modelled.
- The rollover's grouped query (`groupBy('repeated_code')`) is not modelled. The representatives are an input list.
- The enum lookup for the transaction types is not modelled. The ids are given.
- Loose comparison is not modelled: `==` in the type switch, `Collection::where` and `in_array` are exact equality here.
- Absent and null request keys are one case (`None`), although `array_key_exists` tells them apart. As a result, a `convertation_rate` key that is present but null is not modelled.
- Truthiness of numeric strings is not modelled: amount and description overrides count as falsy only when 0 or empty or "0". The string "0.0", which PHP finds truthy, is outside `real`.
- Chart.IntVal: exponent notation and the saturation at PHP_INT_MAX of `intval` are not modelled.
- Chart.BucketKey: Carbon's format strings (`Y-m-d`, `Y-W`, `Y-m`, `Y`) are a given key function, not spelled out.
- Calendar.CreateFromDate: Carbon's parsing of times of day and time zones is not modelled, and dates are whole days. The year is taken as readable: the rollover only asks for the current year and the one before.
- Money is `real`. PHP float rounding is not modelled.
- Storage.Database.ForceDeleteItems: the body of `forceDeleteItems` is not part of this model. It is assumed to delete only rows of the given group, with the date criterion a given predicate.
- Storage.Database.UpdateItems: the body of `updateItems` is not part of this model. It is assumed to set the given status on every row that matches the conditions.
- TransactionService.FirstAccount: no order is given for `first()` on the contractor's accounts. The model takes the lowest id.
- Controllers.TransactionController.UpdateStatus: a missing row fails before the try block in the source. Here it is a refusal with no writes.
