# trackingapp scheduling and KPI core, in Dafny

This project models the core of `trackingapp`, the Django/Celery application that runs
the container-tracking crawlers. It covers five things:

- **Crawler schedules.** `views.py` turns a submitted "H:M" start and end time into an
  `"A-B"` range in the minute and hour fields of a crontab. It sets the day-of-week and
  day-of-month fields from the frequency. `helpers.py` reads the window back for the
  schedule listing.
- **Report schedules.** Here the crontab holds one delivery instant, and the report
  parameters are kept beside it.
- **Crawler dispatch.** `tasks.py` holds the registry from schedule names to crawler
  classes. `run_crawler` rejects unknown names, and `run_reports` queues a crawler by its
  schedule's name.
- **Expiry.** A periodic sweep is meant to disable every enabled schedule whose disable
  time has passed. As written it raises instead (see "## Findings").
- **KPI page.** `admin.py` computes per-leg counts, container totals and average durations
  over the request log. The filters are by website and by rolling date window.

It also models three helpers from `utils.py`:

- the duplicate-container check;
- removal of a SCAC carrier prefix from bills of lading;
- the decision to reuse the stored UPRR token or to fetch a new one.

The model follows the source's shape:

- **Pure helpers** are functions. Their properties are lemmas.
- **Views that write to the database** are methods on a `Store.Database` object. The
  task table is a `seq` of records, alongside the next primary key and the Celery
  queue. Each method states its whole new state and keeps the table invariant (primary
  keys are unique and below the next key).
- **Listing views** are loops, proved against one specification function `Listing`.
- **`check_duplicates`** is a loop, proved against the functions `Traced` and `Warnings`.
- **`remove_scaccode`** rewrites an array in place.

Python semantics are modelled explicitly where the core depends on them:

- `str.strip()` strips Unicode whitespace, and `int()` accepts padding and a sign.
- `split` with a fixed number of parts raises `ValueError` on a wrong count.
- `timedelta.seconds` wraps into one day.
- An id of `0` is falsy, so it takes the "create" branch.
- `.first()` or `.last()` on an empty queryset gives `None`, so reading an attribute of
  it raises `AttributeError`.
- An exception escaping a view is Django's status 500.

Modules:

- `wrappers.dfy`: `Option`, `Result`.
- `python.dfy`: the Python string and number built-ins the core uses.
- `store.dfy`: crontab and scheduled-task records, and the task table.
- `helpers.dfy`: `helpers.py`.
- `tasks.dfy`: `tasks.py`.
- `views.dfy`: the scheduling views of `views.py`.
- `kpi.dfy`: `RequestKPIAdmin` in `admin.py`.
- `utils.dfy`: `utils.py`.

## Behaviour notes

- **"Last" span with an empty leg.** `.last()` on an empty leg A or C returns `None`, and
  `.start_time` / `.stop_time` are read before the `try`, so the KPI page fails
  (`Kpi.LastSpan`). Only a null timestamp yields "Calculating".
- **Malformed stored crontab field.** A stored minute or hour field that does not parse
  makes the listing view raise, so the whole response is a 500 (`Views.ListingFailFrom`).
- **Frequency.** Any frequency text is stored. Anything other than "Weekly" and
  "Monthly", including the default "daily", is scheduled as a daily run (`Views.DaysFor`).
- **CSX registry keys.** Both `"csx_imports"` and `"csx_nashville_imports"` resolve to
  the Nashville crawler, because the second `import ... CSXImports` rebinds the name
  (`Tasks.RegistryResolution`).

## Model

| member | source | states |
|---|---|---|
| Python.StripIgnoresPadding | trackingapp/helpers.py:20 | `strip()` removes any whitespace padding on either side: the padded string strips to the same value as the unpadded one |
| Python.StripEmptyIff | trackingapp/helpers.py:59 | `s.strip() == ""` exactly when every character of `s` is whitespace |
| Python.ParseIntOfIntToString | trackingapp/views.py:685-686 | `int(str(n)) == n` for every integer, so the integer stored in a crontab field reads back unchanged |
| Helpers.StriCompareIsEquivalence | trackingapp/helpers.py:18-22 | `stri_compare` is reflexive, symmetric and transitive; a str never matches a non-str |
| Helpers.StriCompare | trackingapp/helpers.py:18-22 | two strs compare by `strip()` of `upper()`, anything else by `==`; its properties are stated by `StriCompareIsEquivalence` and `StriCompareIgnoresCaseAndPadding` |
| Helpers.StriCompareIgnoresCaseAndPadding | trackingapp/helpers.py:18-20 | a string matches its lower-cased form surrounded by any whitespace |
| Helpers.IsNullOrEmpty | trackingapp/helpers.py:57-61 | an int raises (it has no `strip`); otherwise the answer is true exactly for None or an all-whitespace string |
| Helpers.TimeOf | trackingapp/helpers.py:81 | `time(int(h), int(m))` succeeds exactly when both texts parse and hour < 24, minute < 60, giving that time; otherwise ValueError |
| Helpers.CalculateSeconds | trackingapp/helpers.py:64-71 | succeeds exactly when both "H:M" texts are valid times; the result is below 86400 and equals end minus start, plus a day when the end is earlier; errors are ValueError |
| Helpers.ClockTimeOfPadded | trackingapp/helpers.py:65-68 | a zero-padded "HH:MM" of a valid time parses back to that time |
| Helpers.ClockTime | trackingapp/helpers.py:65-68 | `time(*map(int, text.split(':')))`: ValueError unless there are exactly two parts, otherwise `TimeOf` of them; stated by `ClockTimeOfPadded` and the contract of `CalculateSeconds` |
| Helpers.CalculateSecondsExamples | trackingapp/helpers.py:64-71 | 08:30 to 17:00 is 30600 seconds; 22:00 to 02:00 wraps midnight to 14400 |
| Helpers.CronWindowEnds | trackingapp/helpers.py:74-91 | for fields "A-B" the start time reads the A pieces and the end time the B pieces of minute and hour |
| Helpers.CronStartTime | trackingapp/helpers.py:74-81 | `get_cron_start_time`: the first piece of each range field, or the whole field; stated by `CronWindowEnds`, `CronSingleInstant` and `Views.WindowRoundTrip` |
| Helpers.CronEndTime | trackingapp/helpers.py:84-91 | `get_cron_end_time`: the second piece of each range field, or the whole field; stated by `CronWindowEnds`, `CronSingleInstant` and `Views.WindowRoundTrip` |
| Helpers.CronSingleInstant | trackingapp/helpers.py:74-91 | each field is read on its own: a minute field without '-' gives the same minute at both ends, and an hour field without '-' the same hour, whatever the other field holds; with neither a range, start and end are both `time(int(hour), int(minute))` |
| Helpers.GpaCurrentStatus | trackingapp/helpers.py:175-181 | RELEASED exactly when available is "yes" in any case; HOLD exactly when available is "no" and location "y"; "" otherwise |
| Helpers.GpaHold | trackingapp/helpers.py:184-192 | each hold is returned exactly when its own test holds and every earlier test fails; None exactly when no hold applies |
| Helpers.GpaIgnoresCase | trackingapp/helpers.py:175-192 | lower-casing the flag arguments never changes either classifier's answer |
| Helpers.GpaReleasedAndOutgatedIsHold | trackingapp/helpers.py:175-186 | a container GPA reports RELEASED that has an outgate time is always HOLD, whatever the line, customs and other holds say |
| Tasks.RegistryKeys | trackingapp/tasks.py:23-36 | the registry holds exactly the twelve crawler names |
| Tasks.CrawlerClasses | trackingapp/tasks.py:23-36 | `crawler_classes`; its keys are stated by `RegistryKeys` and its values by `RegistryResolution` |
| Tasks.RegistryResolution | trackingapp/tasks.py:9-36 | every key but "csx_imports" resolves to the class of the module it names; "csx_imports" resolves to the Nashville class because of the rebinding import |
| Tasks.RunCrawler | trackingapp/tasks.py:39-46 | a crawler runs exactly when its name is in the registry, and it is the class the registry maps the name to; any other name raises "Invalid Crawler Name" |
| Tasks.ScheduledTaskCleanup | trackingapp/tasks.py:49-51 | the intended cleanup: the table becomes its sweep at `now`, and the primary-key invariant is kept |
| Tasks.SweepEffect | trackingapp/tasks.py:51 | after the sweep a task is enabled exactly when it was enabled and not past its disable time; only the enabled flag changes; a task with no disable time is untouched |
| Tasks.Sweep | trackingapp/tasks.py:51 | the table after the intended bulk update, row for row the same length; what changes is stated by `SweepEffect` and `SweepAbsorbs` |
| Tasks.SweepAbsorbs | trackingapp/tasks.py:51 | sweeping at t1 and then at a later t2 equals one sweep at t2; with t1 == t2 the sweep is idempotent |
| Tasks.UpdateAsWritten | trackingapp/tasks.py:51 | an `update()` that succeeds writes the sweep of the table at `now` |
| Tasks.CleanupAsWrittenRaises | trackingapp/tasks.py:51 | with the keyword `celery_task__enabled`, which spans a relation, the update raises FieldDoesNotExist on every table, so nothing is disabled |
| Tasks.CleanupAsWrittenExample | trackingapp/tasks.py:51 | an enabled task at its disable time is switched off by the intended sweep, while the code as written raises and leaves it enabled |
| Store.Find | trackingapp/views.py:598 | `.filter(pk=id).first()`: a position holding that primary key with no earlier one, or none when no row has it |
| Views.ImportName | trackingapp/views.py:38 | `name.lower().replace(' ', '_')`; stated by `ImportNameIdempotent`, `ImportNameFixed` and `ImportNameExample` |
| Views.ImportNameIdempotent | trackingapp/views.py:38 | normalising a schedule name twice equals normalising it once |
| Views.ImportNameFixed | trackingapp/views.py:38 | a name without capitals or spaces is its own registry key |
| Views.ImportNameExample | trackingapp/views.py:38-47 | the schedule "BCT Imports" queues "bct_imports", which resolves to `BCTImports` |
| Views.RunReports | trackingapp/views.py:30-52 | not a POST, or an unknown id: 405 and nothing queued; a schedule with a null name: 500; otherwise 200, and the normalised name is queued exactly when the registry knows it |
| Views.Format12h | trackingapp/views.py:584-585 | `strftime('%I:%M %p')` is always eight characters |
| Views.Format12hInjective | trackingapp/views.py:584-585 | two different times of day never display alike |
| Views.DaysFor | trackingapp/views.py:610-619 | Weekly sets day-of-week "1", Monthly sets day-of-month "1", anything else leaves both "*"; never both "1" |
| Views.AddOrEditSchedule | trackingapp/views.py:593-630 | 405 exactly when not a POST; 200 exactly for a truthy id of an existing task with two well-formed "H:M" texts; on 200 only that task changes, to the edited window, name, category and frequency; otherwise the table is unchanged |
| Views.WindowRoundTrip | trackingapp/views.py:605-608 | the saved window reads back, start and end, as `time(int(H), int(M))` of the submitted texts, failures included |
| Views.PaddedWindowRoundTrip | trackingapp/views.py:605-608 | a zero-padded "HH:MM" window is read back as exactly the times submitted |
| Views.Kept | trackingapp/views.py:575 | the category filter keeps exactly the selected rows of the table: every kept row is selected and in the table, every selected row is kept, and there are at most as many as the table has |
| Views.Listing | trackingapp/views.py:576-587 | the loop of both listing views (also views.py:637-657): success, contents and the failing row are stated by `ListingOkIff`, `ListingContents`, `ListingFailFrom` and `ListingSingle` |
| Views.ListingOkIff | trackingapp/views.py:576-587 | a listing succeeds exactly when every selected task's row decodes |
| Views.ListingContents | trackingapp/views.py:576-587 | a successful listing has one entry per selected task, in table order, each that task's decoded row |
| Views.ListingSingle | trackingapp/views.py:576-587 | a lone selected task that decodes is listed as its own row |
| Views.ListingFailFrom | trackingapp/views.py:577-585 | the first selected task whose row fails to decode fails the whole view with its exception |
| Views.GetTracingSchedules | trackingapp/views.py:573-589 | the loop's result is the listing of the Import/Export/Other tasks with their windows read back |
| Views.DeliveryCrontab | trackingapp/views.py:684-698 | the crontab steps succeed exactly when the delivery time unpacks into two integers, and give the one-instant crontab of the form; errors are ValueError |
| Views.AddOrEditReportSchedule | trackingapp/views.py:662-739 | 405 exactly when not a POST; a truthy id edits that task (200 exactly when it exists and the delivery time unpacks and parses); otherwise a new task is appended (200 exactly when the delivery time unpacks and parses); on failure the table is unchanged; the key counter advances by one exactly when a task is created |
| Views.UpdateReportSchedule | trackingapp/views.py:673-703 | only the task with that id changes: new kwargs, one-instant crontab, frequency and name, category kept |
| Views.CreateReportSchedule | trackingapp/views.py:704-736 | on success one enabled 'Email' task is appended with the next primary key and the key counter advances by one; on failure the table and the counter are unchanged |
| Views.DeliveryRoundTrip | trackingapp/views.py:684-686 | the saved delivery instant reads back in the listing as `time(int(H), int(M))` of the submitted "H:M" |
| Views.DeliveryRangeUnchecked | trackingapp/views.py:684-686 | "25:00" is saved without complaint and only fails when the schedules are listed |
| Views.NewReportDelivery | trackingapp/views.py:708-710 | a report created from "HH:MM" is saved with exactly that delivery time |
| Views.NewReportListed | trackingapp/views.py:634-659 | a report created from "HH:MM" is listed with its name, frequency, category 'Email', that time displayed, and its date range and report type |
| Views.SingleReportListed | trackingapp/views.py:637-657 | an 'Email' task whose delivery instant is valid is listed with the fields read from its kwargs |
| Views.GetReportSchedules | trackingapp/views.py:634-659 | the loop's result is the listing of the 'Email' tasks with their delivery times read back |
| Kpi.Where | trackingapp/admin.py:123 | a filter keeps exactly the rows that satisfy it, at most as many as there are |
| Kpi.GetQueryset | trackingapp/admin.py:102-120 | `get_queryset`: the website filter, else the date window, else the whole table; stated by `GetQuerysetAdmits`, `WebsitePrecedence`, `UnknownDateUnfiltered` and `WindowsNest` |
| Kpi.GetQuerysetAdmits | trackingapp/admin.py:102-120 | the queryset is exactly the rows admitted by the website filter, or else the date window, in table order |
| Kpi.WebsitePrecedence | trackingapp/admin.py:105-107 | when a website is given, the date choice makes no difference |
| Kpi.UnknownDateUnfiltered | trackingapp/admin.py:107-120 | no filter, or a date choice other than the four known ones, leaves every row |
| Kpi.WindowsNest | trackingapp/admin.py:109-119 | a row inside a shorter window is inside every longer one |
| Kpi.LegA | trackingapp/admin.py:122-123 | the GETs to the TMDB hub, in table order; stated through `Where`, `LegsDisjoint` and `LastSpanValue` |
| Kpi.LegC | trackingapp/admin.py:130-131 | the POSTs to the TMDB hub, in table order; stated through `Where`, `LegsDisjoint` and `LastSpanValue` |
| Kpi.LegB | trackingapp/admin.py:125-128 | defined exactly when the queryset's first row has a website; then the POSTs to that site's name; otherwise AttributeError |
| Kpi.LegsDisjoint | trackingapp/admin.py:122-131 | no request is in both leg A and leg C, or in both A and B; |A| + |C| never exceeds the rows |
| Kpi.LegBOnHub | trackingapp/admin.py:125-131 | when the first row's site is named "TMDB", leg B counts the same requests as leg C |
| Kpi.ContainerCount | trackingapp/admin.py:136 | a null or empty value counts 0; other text counts its integer value or raises ValueError |
| Kpi.SumOf | trackingapp/admin.py:134-136 | `sum(...)` over a generator: the first term that raises fails the sum; stated by `SumOfOkIff` and `SumOfAppend` |
| Kpi.SumOfOkIff | trackingapp/admin.py:136 | a sum exists exactly when every row's count does |
| Kpi.SumOfAppend | trackingapp/admin.py:136 | sums add up over concatenated sets of rows |
| Kpi.ContainerSum | trackingapp/admin.py:134-148 | a container total that fails always fails with ValueError |
| Kpi.ContainerSumOfBlanks | trackingapp/admin.py:136 | rows with no container values total zero |
| Kpi.TimedZeroIff | trackingapp/admin.py:153 | SQL AVG counts no row exactly when no row has both timestamps |
| Kpi.Average | trackingapp/admin.py:151-157 | the mean times the number of timed rows is their total duration; a failure is AttributeError |
| Kpi.AverageOkIff | trackingapp/admin.py:151-157 | an average exists exactly when some row has a duration |
| Kpi.AverageWithin | trackingapp/admin.py:151-210 | every average lies between the shortest and the longest duration averaged |
| Kpi.LastSpan | trackingapp/admin.py:160-175 | fails with AttributeError exactly when leg A or leg C is empty |
| Kpi.LastSpanValue | trackingapp/admin.py:160-175 | for any table, with `i` the last pull and `j` the last push: the span is `qs[j]`'s stop time minus `qs[i]`'s start time, or "Calculating" when either is null |
| Kpi.LastSpanUnpaired | trackingapp/admin.py:160-175 | a pull that starts after the last push is paired with that push, so the span is negative |
| Kpi.LastSpanOfLatestRun | trackingapp/admin.py:160-175 | after a run ending with a pull and a push, the span is the push's stop minus the pull's start |
| Kpi.ChangelistView | trackingapp/admin.py:212-242 | the page renders exactly when leg B exists, every container total parses, the overall and three leg averages exist and the last span exists; each context value is then its component |
| Kpi.EmptyQuerysetFails | trackingapp/admin.py:125-128 | with no rows in the queryset the page fails with AttributeError |
| Kpi.KpiScenario | trackingapp/admin.py:212-242 | one pull of 4 containers, one carrier query and one push give counts 1/1/1, totals 4/4/4, averages 6.0/5.0/4.0/9.0 and a 20-second last span |
| Utils.Traced | trackingapp/utils.py:86-88 | the response holds exactly the entries whose site id does not start with 'L' |
| Utils.Warnings | trackingapp/utils.py:89-93 | one warning per entry whose container number appeared earlier, in input order; stated by `CheckDuplicates`, `NoWarningsIffDistinct` and `WarningCount` |
| Utils.CheckDuplicates | trackingapp/utils.py:83-94 | the loop returns the traced entries in input order, and one warning per entry whose container number appeared earlier |
| Utils.NoWarningsIffDistinct | trackingapp/utils.py:89-93 | nothing is logged exactly when no two entries share a container number |
| Utils.WarningCount | trackingapp/utils.py:89-93 | warnings plus distinct container numbers equal the number of entries |
| Utils.RemoveScacCode | trackingapp/utils.py:97-106 | the same list comes back, each item rewritten by the SCAC rule |
| Utils.ScacStripped | trackingapp/utils.py:99-105 | one trace item after `remove_scaccode`; stated by `ScacStrippedChanges`, `ScacStrippedSuffix`, `PaddedBillKeepsCodeTail` and `LeadingSpaceExample` |
| Utils.ScacStrippedChanges | trackingapp/utils.py:100-105 | an item changes exactly when its stripped bill of lading is longer than 3 characters and starts with a listed code; only the bill of lading changes, losing its first four characters |
| Utils.ScacStrippedSuffix | trackingapp/utils.py:103-105 | a bill of lading only ever loses a prefix of at most four characters |
| Utils.PaddedBillKeepsCodeTail | trackingapp/utils.py:100-105 | a listed code behind leading whitespace is only partly removed: four characters of the raw value go, so part of the code remains |
| Utils.LeadingSpaceExample | trackingapp/utils.py:100-105 | " ABCD123" under the code "ABCD" becomes "D123" |
| Utils.TokenDecision | trackingapp/utils.py:38-47 | no stored token: fetch; otherwise the last token is reused exactly when its creation time plus `int(expires_in)` is not before now; an unparseable `expires_in` raises ValueError |
| Utils.TokenDecisionUsesLast | trackingapp/utils.py:40 | only the latest stored token matters |
| Utils.TokenDecisionMonotone | trackingapp/utils.py:41-45 | a token reusable later was reusable earlier; once a fetch is needed it stays needed |

## Left out

- `json.load` of the request body, and JSON serialisation of responses: a body is a record of optional fields (a missing key is `None`); a malformed body, an explicit JSON `null` and non-string values are not modelled.
- `models.py` is not part of this model: a scheduled task's `name` is taken to be its periodic task's name, and `RequestKPI.containers` a nullable text column.
- Database constraints other than unique primary keys, transactions, and the separate `save()` of crontab, periodic task and scheduled task: a view either saves its whole change or, when it raises first, nothing.
- Tasks.ScheduledTaskCleanup: models the intended effect, disabling the related periodic task; the code as written raises instead (see "## Findings"), which `Tasks.UpdateAsWritten` models. Django's field lookup is reduced to the rule that a keyword containing "__" is not a field of the table.
- Celery: `run_crawler.delay` appends the crawler name to a queue; the 2500-second soft and hard time limits are not modelled; running a crawler (`run()`) and the crawler classes themselves are not modelled.
- `run_reports`' website lookup and file logger (they do not affect the response); `check_duplicates`' logger is modelled as the list of warning messages it would receive.
- Store.ScheduledTask: one record stands for a scheduled task, its periodic task and its crontab, so each task owns its crontab. In the source the edit views change the `CrontabSchedule` row in place and save it (views.py:604-621, 681-702), which also reschedules every other periodic task that shares that row; `Views.AddOrEditSchedule` and `Views.UpdateReportSchedule` state that only the edited task changes, which holds only when no crontab is shared.
- Store.ScheduledTask: a task without a periodic task, or a periodic task without a crontab (an interval task), cannot be represented. In the source, reading `celery_task.crontab` of such a task raises AttributeError, so `Views.GetTracingSchedules`, `Views.GetReportSchedules`, `Views.AddOrEditSchedule` and `Views.AddOrEditReportSchedule` would answer 500.
- Utils.TraceEntry: `SITE_ID` and `CONTAINER_NUMBER` are present strings and `BILL_NUMBER` a present value. In the source a `None` site id raises AttributeError (utils.py:87), and a missing `BILL_NUMBER` raises KeyError, but only when a warning about that entry is logged (utils.py:90-91); `Utils.CheckDuplicates` does not model either failure.
- `@login_required`: an anonymous request is redirected to the login page before any view logic runs; `Views.RunReports`, `Views.GetTracingSchedules`, `Views.AddOrEditSchedule`, `Views.GetReportSchedules` and `Views.AddOrEditReportSchedule` model an authenticated request only.
- `datetime.now()`, `timezone.now()` and `date.today()` are parameters: timestamps are whole seconds and dates whole day numbers.
- Kpi.Average: the mean is an exact real; the `round(..., 2)` to two decimals and floating point are not modelled.
- Kpi.LastSpan: the span is whole seconds, not rounded to two decimals.
- Kpi.ChangelistView: the Django admin change list it renders is not modelled, only the extra context.
- Queryset order for `.first()` and `.last()` is taken as table order (the model has no default ordering).
- Python.Upper and Python.Lower: ASCII letters only; Unicode case mapping is not modelled.
- Python.ParseInt: underscores between digits and non-ASCII digits, which `int()` accepts, are not modelled.
- `get_report_schedules`: the `email_list`, `format` and `date_range` output fields, and a `kwargs` column that is not valid JSON; a task without report parameters is read as the default `{}`.
- Report rendering, e-mail delivery, Excel/PDF generation and the other views of `views.py` are outside this core.
- `get_api_token` (a network call that stores a new token) is not modelled; the token decision returns `Refetch` where the source would call it.
- `remove_scaccode` loads the SCAC codes from the database; they are a parameter. The trace items are dictionaries shared by reference in Python; the model rewrites values in an array, so aliasing between items is not captured.

## Findings

| source | as written | input that shows it | evidently intended | confidence | as-written member | corrected member |
|---|---|---|---|---|---|---|
| trackingapp/tasks.py:51 | `.update(celery_task__enabled=False)` names a field of the related periodic task; `QuerySet.update()` sets only the scheduled-task table's own fields, so it raises FieldDoesNotExist and no row changes | any run, e.g. one enabled task whose disable time equals `now` | disable the periodic task of every enabled scheduled task past its disable time | not executed; follows from reading Django's `update()` | Tasks.CleanupAsWrittenRaises | Tasks.ScheduledTaskCleanup |
