/**
 * The scheduling views of trackingapp/views.py: `run_reports` (queue a crawler by its
 * schedule's name), `get_tracing_schedules` / `add_or_edit_schedule` (crawler schedules,
 * whose crontab minute and hour fields hold an "A-B" time window) and
 * `get_report_schedules` / `add_or_edit_report_schedule` (e-mailed reports, whose
 * crontab holds one delivery instant).  Views answer with an HTTP status; an exception
 * escaping a view is Django's 500.
 */
module Views {
  import opened Wrappers
  import opened Python
  import opened Store
  import opened Helpers
  import Tasks

  function GetOr<T>(o: Option<T>, default: T): T {
    if o.Some? then o.value else default
  }

  /** `if pk:` — a missing id and the id 0 are both false. */
  predicate Truthy(id: Option<int>) {
    id.Some? && id.value != 0
  }

  // ---------------------------------------------------------------------------
  // run_reports

  /** `name.lower().replace(' ', '_')`: a schedule name as a registry key. */
  function ImportName(name: string): string {
    Replace(Lower(name), ' ', '_')
  }

  /** Normalising twice changes nothing more than normalising once. */
  lemma ImportNameIdempotent(name: string)
    ensures ImportName(ImportName(name)) == ImportName(name)
  {
  }

  /** A name without upper-case letters or spaces is its own import name. */
  lemma ImportNameFixed(name: string)
    requires forall i :: 0 <= i < |name| ==> !('A' <= name[i] <= 'Z') && name[i] != ' '
    ensures ImportName(name) == name
  {
  }

  /** A schedule called "BCT Imports" runs the "bct_imports" crawler. */
  lemma ImportNameExample()
    ensures ImportName("BCT Imports") == "bct_imports"
    ensures Tasks.RunCrawler(ImportName("BCT Imports")) == Ok(Tasks.Handler("bct_imports", "BCTImports"))
  {
    assert ImportName("BCT Imports") == "bct_imports";
  }

  /**
   * `run_reports`: for a POST naming an existing schedule, queue `run_crawler` with the
   * normalised name when the registry knows it, and answer 200 whether or not it did.
   */
  method RunReports(db: Database, isPost: bool, id: Option<int>) returns (status: nat)
    requires db.Valid()
    modifies db`queue
    ensures !isPost || id.None? || Find(db.tasks, id.value).None? ==>
      status == 405 && db.queue == old(db.queue)
    ensures isPost && id.Some? && Find(db.tasks, id.value).Some? ==>
      var name := db.tasks[Find(db.tasks, id.value).value].name;
      && (name.None? ==> status == 500 && db.queue == old(db.queue))
      && (name.Some? ==>
            && status == 200
            && db.queue == old(db.queue) +
                 if ImportName(name.value) in Tasks.CrawlerClasses() then [ImportName(name.value)] else [])
  {
    if !isPost {
      return 405;
    }
    if id.None? {
      return 405;
    }
    var k := Find(db.tasks, id.value);
    if k.None? {
      return 405;
    }
    var name := db.tasks[k.value].name;
    if name.None? {
      return 500;
    }
    var importName := ImportName(name.value);
    if importName in Tasks.CrawlerClasses() {
      db.queue := db.queue + [importName];
    }
    return 200;
  }

  // ---------------------------------------------------------------------------
  // Display of a time: strftime('%I:%M %p')

  function Format12h(t: Time): (r: string)
    requires t.hour < 24 && t.minute < 60
    ensures |r| == 8
  {
    var h12 := if t.hour % 12 == 0 then 12 else t.hour % 12;
    Pad2(h12) + ":" + Pad2(t.minute) + " " + (if t.hour < 12 then "AM" else "PM")
  }

  lemma Pad2Injective(a: nat, b: nat)
    requires a < 100 && b < 100 && Pad2(a) == Pad2(b)
    ensures a == b
  {
    assert DigitValue(Pad2(a)[0]) == a / 10 && DigitValue(Pad2(a)[1]) == a % 10;
    assert DigitValue(Pad2(b)[0]) == b / 10 && DigitValue(Pad2(b)[1]) == b % 10;
  }

  /** Two different times of day never display alike. */
  lemma Format12hInjective(t1: Time, t2: Time)
    requires t1.hour < 24 && t1.minute < 60 && t2.hour < 24 && t2.minute < 60
    requires Format12h(t1) == Format12h(t2)
    ensures t1 == t2
  {
    var h1 := if t1.hour % 12 == 0 then 12 else t1.hour % 12;
    var h2 := if t2.hour % 12 == 0 then 12 else t2.hour % 12;
    var s1, s2 := Format12h(t1), Format12h(t2);
    assert s1[..2] == Pad2(h1) && s2[..2] == Pad2(h2);
    assert s1[3..5] == Pad2(t1.minute) && s2[3..5] == Pad2(t2.minute);
    Pad2Injective(h1, h2);
    Pad2Injective(t1.minute, t2.minute);
    assert s1[6] == (if t1.hour < 12 then 'A' else 'P');
    assert s2[6] == (if t2.hour < 12 then 'A' else 'P');
  }

  // ---------------------------------------------------------------------------
  // Frequency

  /**
   * (day_of_week, day_of_month) after an edit: both are reset to '*', then "Weekly"
   * runs on Mondays and "Monthly" on the first; any other text is kept as a daily run.
   */
  function DaysFor(frequency: string): (days: (string, string))
    ensures days.0 == (if frequency == "Weekly" then "1" else "*")
    ensures days.1 == (if frequency == "Monthly" then "1" else "*")
    ensures !(days.0 == "1" && days.1 == "1")
  {
    if frequency == "Weekly" then ("1", "*")
    else if frequency == "Monthly" then ("*", "1")
    else ("*", "*")
  }

  // ---------------------------------------------------------------------------
  // Crawler schedules: add_or_edit_schedule / get_tracing_schedules

  /** The JSON body of `add_or_edit_schedule`. */
  datatype ScheduleForm = ScheduleForm(
    id: Option<int>,
    name: Option<string>,
    category: Option<string>,
    startTime: Option<string>,
    endTime: Option<string>,
    frequency: Option<string>)

  /**
   * The (minute, hour) fields for a window: `"{sm}-{em}"` and `"{sh}-{eh}"` from the two
   * "H:M" texts, taken as written; unpacking fails unless each has exactly one ':'.
   */
  function WindowFields(startTime: string, endTime: string): Result<(string, string), Exception> {
    var s := Split(startTime, ':');
    var e := Split(endTime, ':');
    if |s| != 2 || |e| != 2 then Err(ValueError)
    else Ok((s[1] + "-" + e[1], s[0] + "-" + e[0]))
  }

  function FormWindow(form: ScheduleForm): Result<(string, string), Exception> {
    WindowFields(GetOr(form.startTime, ":"), GetOr(form.endTime, ":"))
  }

  /** The task as `add_or_edit_schedule` saves it. */
  function EditedWindowTask(t: ScheduledTask, form: ScheduleForm): ScheduledTask
    requires FormWindow(form).Ok?
  {
    var (minute, hour) := FormWindow(form).value;
    var frequency := GetOr(form.frequency, "daily");
    var (dow, dom) := DaysFor(frequency);
    t.(category := form.category, name := form.name, frequency := frequency,
       cron := Crontab(minute, hour, dow, dom))
  }

  /** `add_or_edit_schedule` */
  method AddOrEditSchedule(db: Database, isPost: bool, form: ScheduleForm) returns (status: nat)
    requires db.Valid()
    modifies db`tasks
    ensures db.Valid()
    ensures status in {200, 405, 500}
    ensures status == 405 <==> !isPost
    ensures status == 200 <==>
      isPost && Truthy(form.id) && Find(old(db.tasks), form.id.value).Some? && FormWindow(form).Ok?
    ensures status != 200 ==> db.tasks == old(db.tasks)
    ensures status == 200 ==>
      var k := Find(old(db.tasks), form.id.value).value;
      db.tasks == old(db.tasks)[k := EditedWindowTask(old(db.tasks)[k], form)]
  {
    if !isPost {
      return 405;
    }
    if !Truthy(form.id) {
      return 500;
    }
    var k := Find(db.tasks, form.id.value);
    if k.None? {
      // `.first()` gave None: AttributeError
      return 500;
    }
    var task := db.tasks[k.value];
    task := task.(category := form.category);
    task := task.(name := form.name);
    var cron := task.cron;
    var s := Split(GetOr(form.startTime, ":"), ':');
    var e := Split(GetOr(form.endTime, ":"), ':');
    if |s| != 2 || |e| != 2 {
      return 500;
    }
    cron := cron.(minute := s[1] + "-" + e[1]);
    cron := cron.(hour := s[0] + "-" + e[0]);
    var frequency := GetOr(form.frequency, "daily");
    task := task.(frequency := frequency);
    cron := cron.(dayOfWeek := "*");
    cron := cron.(dayOfMonth := "*");
    if frequency == "Weekly" {
      cron := cron.(dayOfWeek := "1");
    } else if frequency == "Monthly" {
      cron := cron.(dayOfMonth := "1");
    }
    task := task.(cron := cron);
    SaveKeepsKeys(db.tasks, db.nextId, k.value, task);
    db.tasks := db.tasks[k.value := task];
    return 200;
  }

  /**
   * Reading the saved window back gives the times the form was submitted with: for
   * "H:M" texts whose parts hold no '-', the stored crontab decodes to exactly what
   * `time(int(H), int(M))` makes of each text, failures included.
   */
  lemma {:induction false} WindowRoundTrip(t: ScheduledTask, form: ScheduleForm,
                                           sh: string, sm: string, eh: string, em: string)
    requires form.startTime == Some(sh + ":" + sm) && form.endTime == Some(eh + ":" + em)
    requires ':' !in sh && ':' !in sm && ':' !in eh && ':' !in em
    requires '-' !in sh && '-' !in sm && '-' !in eh && '-' !in em
    ensures FormWindow(form).Ok?
    ensures CronStartTime(EditedWindowTask(t, form).cron) == ClockTime(sh + ":" + sm)
    ensures CronEndTime(EditedWindowTask(t, form).cron) == ClockTime(eh + ":" + em)
  {
    SplitPair(sh, ':', sm);
    SplitPair(eh, ':', em);
    var cron := EditedWindowTask(t, form).cron;
    assert cron.minute == sm + "-" + em && cron.hour == sh + "-" + eh;
    CronWindowEnds(sm, em, sh, eh, cron.dayOfWeek, cron.dayOfMonth);
  }

  /** The schedule listing shows a zero-padded "HH:MM" window as it was entered. */
  lemma PaddedWindowRoundTrip(t: ScheduledTask, form: ScheduleForm, h1: nat, m1: nat, h2: nat, m2: nat)
    requires h1 < 24 && m1 < 60 && h2 < 24 && m2 < 60
    requires form.startTime == Some(Pad2(h1) + ":" + Pad2(m1))
    requires form.endTime == Some(Pad2(h2) + ":" + Pad2(m2))
    ensures FormWindow(form).Ok?
    ensures CronStartTime(EditedWindowTask(t, form).cron) == Ok(Time(h1, m1))
    ensures CronEndTime(EditedWindowTask(t, form).cron) == Ok(Time(h2, m2))
  {
    WindowRoundTrip(t, form, Pad2(h1), Pad2(m1), Pad2(h2), Pad2(m2));
    ClockTimeOfPadded(h1, m1);
    ClockTimeOfPadded(h2, m2);
  }

  // ---------------------------------------------------------------------------
  // The listing loop shared by get_tracing_schedules and get_report_schedules

  /** The tasks `keep` selects, in table order (the queryset's filter). */
  function Kept(tasks: seq<ScheduledTask>, keep: ScheduledTask -> bool): (r: seq<ScheduledTask>)
    ensures |r| <= |tasks|
    ensures forall j :: 0 <= j < |r| ==> keep(r[j]) && r[j] in tasks
    ensures forall t :: t in tasks && keep(t) ==> t in r
    decreases |tasks|
  {
    if |tasks| == 0 then []
    else
      var init := Kept(tasks[..|tasks| - 1], keep);
      var last := tasks[|tasks| - 1];
      assert forall t :: t in tasks[..|tasks| - 1] ==> t in tasks;
      if keep(last) then init + [last] else init
  }

  /**
   * A listing view's loop over `tasks`: every task `keep` selects is decoded by `row`
   * and appended in table order; the first task that fails to decode fails the whole
   * view with its exception.
   */
  function Listing<R>(tasks: seq<ScheduledTask>, keep: ScheduledTask -> bool,
                      row: ScheduledTask -> Result<R, Exception>): Result<seq<R>, Exception>
    decreases |tasks|
  {
    if |tasks| == 0 then Ok([])
    else
      var prefix := Listing(tasks[..|tasks| - 1], keep, row);
      var last := tasks[|tasks| - 1];
      if prefix.Err? || !keep(last) then prefix
      else match row(last)
        case Err(e) => Err(e)
        case Ok(v) => Ok(prefix.value + [v])
  }

  /** The listing succeeds exactly when every selected task decodes. */
  lemma {:induction false} ListingOkIff<R>(tasks: seq<ScheduledTask>, keep: ScheduledTask -> bool,
                                           row: ScheduledTask -> Result<R, Exception>)
    ensures Listing(tasks, keep, row).Ok? <==>
      forall i :: 0 <= i < |tasks| && keep(tasks[i]) ==> row(tasks[i]).Ok?
    decreases |tasks|
  {
    if |tasks| > 0 {
      var init := tasks[..|tasks| - 1];
      ListingOkIff(init, keep, row);
      assert forall i :: 0 <= i < |init| ==> init[i] == tasks[i];
    }
  }

  /** A successful listing holds the decoded selected tasks, one entry each, in table order. */
  lemma {:induction false} ListingContents<R>(tasks: seq<ScheduledTask>, keep: ScheduledTask -> bool,
                                              row: ScheduledTask -> Result<R, Exception>)
    requires Listing(tasks, keep, row).Ok?
    ensures |Listing(tasks, keep, row).value| == |Kept(tasks, keep)|
    ensures forall j :: 0 <= j < |Kept(tasks, keep)| ==>
      row(Kept(tasks, keep)[j]) == Ok(Listing(tasks, keep, row).value[j])
    decreases |tasks|
  {
    if |tasks| > 0 {
      ListingContents(tasks[..|tasks| - 1], keep, row);
    }
  }

  /** A single selected task that decodes is listed on its own. */
  lemma ListingSingle<R>(t: ScheduledTask, keep: ScheduledTask -> bool,
                         row: ScheduledTask -> Result<R, Exception>)
    requires keep(t) && row(t).Ok?
    ensures Listing([t], keep, row) == Ok([row(t).value])
  {
    assert [t][..0] == [];
    assert Listing([t][..0], keep, row) == Ok([]);
    assert [] + [row(t).value] == [row(t).value];
  }

  /** The first selected task that fails to decode fails the whole listing with its exception. */
  lemma {:induction false} ListingFailFrom<R>(tasks: seq<ScheduledTask>, keep: ScheduledTask -> bool,
                                              row: ScheduledTask -> Result<R, Exception>, i: nat)
    requires i < |tasks|
    requires Listing(tasks[..i], keep, row).Ok? && keep(tasks[i]) && row(tasks[i]).Err?
    ensures Listing(tasks, keep, row) == Err(row(tasks[i]).error)
    decreases |tasks|
  {
    if i + 1 < |tasks| {
      assert tasks[..|tasks| - 1][..i] == tasks[..i];
      ListingFailFrom(tasks[..|tasks| - 1], keep, row, i);
    } else {
      assert tasks[..|tasks| - 1] == tasks[..i];
    }
  }

  /** One more task of the table: skipped when not selected, otherwise its row is appended. */
  lemma ListingStep<R>(tasks: seq<ScheduledTask>, keep: ScheduledTask -> bool,
                       row: ScheduledTask -> Result<R, Exception>, i: nat)
    requires i < |tasks| && Listing(tasks[..i], keep, row).Ok?
    ensures !keep(tasks[i]) ==> Listing(tasks[..i + 1], keep, row) == Listing(tasks[..i], keep, row)
    ensures keep(tasks[i]) && row(tasks[i]).Ok? ==>
      Listing(tasks[..i + 1], keep, row) == Ok(Listing(tasks[..i], keep, row).value + [row(tasks[i]).value])
  {
    assert tasks[..i + 1][..i] == tasks[..i];
  }

  /** One entry of `get_tracing_schedules`. */
  datatype ScheduleRow = ScheduleRow(
    id: nat,
    name: Option<string>,
    frequency: string,
    category: Option<string>,
    startTime: string,
    endTime: string)

  /** `category__in=['Import', 'Export', 'Other']` */
  predicate IsTracing(t: ScheduledTask) {
    t.category == Some("Import") || t.category == Some("Export") || t.category == Some("Other")
  }

  /** The entry for one crawler schedule: its window read back out of the crontab. */
  function TracingRow(t: ScheduledTask): Result<ScheduleRow, Exception> {
    var start := CronStartTime(t.cron);
    var end := CronEndTime(t.cron);
    if start.Err? then Err(start.error)
    else if end.Err? then Err(end.error)
    else Ok(ScheduleRow(t.id, t.name, t.frequency, t.category, Format12h(start.value), Format12h(end.value)))
  }

  /** `get_tracing_schedules` */
  method GetTracingSchedules(db: Database) returns (r: Result<seq<ScheduleRow>, Exception>)
    ensures r == Listing(db.tasks, IsTracing, TracingRow)
  {
    var objs: seq<ScheduleRow> := [];
    var i := 0;
    while i < |db.tasks|
      invariant 0 <= i <= |db.tasks|
      invariant Listing(db.tasks[..i], IsTracing, TracingRow) == Ok(objs)
    {
      var task := db.tasks[i];
      ListingStep(db.tasks, IsTracing, TracingRow, i);
      if IsTracing(task) {
        var start := CronStartTime(task.cron);
        if start.Err? {
          ListingFailFrom(db.tasks, IsTracing, TracingRow, i);
          return Err(start.error);
        }
        var end := CronEndTime(task.cron);
        if end.Err? {
          ListingFailFrom(db.tasks, IsTracing, TracingRow, i);
          return Err(end.error);
        }
        var obj := ScheduleRow(task.id, task.name, task.frequency, task.category,
                               Format12h(start.value), Format12h(end.value));
        assert TracingRow(task) == Ok(obj);
        objs := objs + [obj];
      }
      i := i + 1;
    }
    assert db.tasks[..i] == db.tasks;
    return Ok(objs);
  }

  // ---------------------------------------------------------------------------
  // Report schedules: add_or_edit_report_schedule / get_report_schedules

  /** The JSON body of `add_or_edit_report_schedule`. */
  datatype ReportForm = ReportForm(
    id: Option<int>,
    name: Option<string>,
    emailList: Option<string>,
    format: Option<string>,
    dateRangeStart: Option<string>,
    dateRangeEnd: Option<string>,
    reportType: Option<string>,
    deliveryTime: Option<string>,
    frequency: Option<string>)

  function FormArgs(form: ReportForm): ReportArgs {
    ReportArgs(GetOr(form.emailList, ""), GetOr(form.format, ""),
               form.dateRangeStart, form.dateRangeEnd, form.reportType)
  }

  /**
   * The (minute, hour) fields for a delivery time "H:M": `int(M)` and `int(H)`, kept as
   * the text of those integers. Only the unpacking and `int()` can fail; the range is
   * not checked here.
   */
  function DeliveryFields(deliveryTime: string): Result<(string, string), Exception> {
    var p := Split(deliveryTime, ':');
    if |p| != 2 then Err(ValueError)
    else match (ParseInt(p[1]), ParseInt(p[0]))
      case (Some(m), Some(h)) => Ok((IntToString(m), IntToString(h)))
      case _ => Err(ValueError)
  }

  function FormDelivery(form: ReportForm): Result<(string, string), Exception> {
    DeliveryFields(GetOr(form.deliveryTime, ":"))
  }

  /** The crontab a report form describes: one instant, days from the frequency. */
  function ReportCron(form: ReportForm): Crontab
    requires FormDelivery(form).Ok?
  {
    var (minute, hour) := FormDelivery(form).value;
    var (dow, dom) := DaysFor(GetOr(form.frequency, "daily"));
    Crontab(minute, hour, dow, dom)
  }

  /** An existing report task as the update branch saves it (its category is kept). */
  function EditedReportTask(t: ScheduledTask, form: ReportForm): ScheduledTask
    requires FormDelivery(form).Ok?
  {
    t.(kwargs := Some(FormArgs(form)), cron := ReportCron(form),
       frequency := GetOr(form.frequency, "daily"), name := form.name)
  }

  /** The task the create branch adds: an enabled 'Email' task with no disable time. */
  function NewReportTask(id: nat, form: ReportForm): ScheduledTask
    requires FormDelivery(form).Ok?
  {
    ScheduledTask(id, form.name, Some("Email"), GetOr(form.frequency, "daily"), true, None,
                  ReportCron(form), Some(FormArgs(form)))
  }

  /** `add_or_edit_report_schedule` */
  method AddOrEditReportSchedule(db: Database, isPost: bool, form: ReportForm) returns (status: nat)
    requires db.Valid()
    modifies db`tasks, db`nextId
    ensures db.Valid()
    ensures status in {200, 405, 500}
    ensures status == 405 <==> !isPost
    ensures status != 200 ==> db.tasks == old(db.tasks)
    ensures isPost && Truthy(form.id) ==>
      (status == 200 <==> Find(old(db.tasks), form.id.value).Some? && FormDelivery(form).Ok?)
    ensures status == 200 && Truthy(form.id) ==>
      var k := Find(old(db.tasks), form.id.value).value;
      db.tasks == old(db.tasks)[k := EditedReportTask(old(db.tasks)[k], form)]
    ensures isPost && !Truthy(form.id) ==> (status == 200 <==> FormDelivery(form).Ok?)
    ensures status == 200 && !Truthy(form.id) ==>
      db.tasks == old(db.tasks) + [NewReportTask(old(db.nextId), form)]
    ensures db.nextId == old(db.nextId) + (if status == 200 && !Truthy(form.id) then 1 else 0)
  {
    if !isPost {
      return 405;
    }
    if Truthy(form.id) {
      status := UpdateReportSchedule(db, form);
    } else {
      status := CreateReportSchedule(db, form);
    }
  }

  /**
   * The crontab steps both branches of `add_or_edit_report_schedule` share: the delivery
   * time "H:M" is unpacked and each part stored as `int()` of it, then the days are
   * reset and set from the frequency.
   */
  method DeliveryCrontab(form: ReportForm) returns (r: Result<Crontab, Exception>)
    ensures r.Ok? <==> FormDelivery(form).Ok?
    ensures r.Ok? ==> r.value == ReportCron(form)
    ensures r.Err? ==> r.error == ValueError
  {
    var p := Split(GetOr(form.deliveryTime, ":"), ':');
    if |p| != 2 {
      return Err(ValueError);
    }
    var minute := ParseInt(p[1]);
    if minute.None? {
      return Err(ValueError);
    }
    var hour := ParseInt(p[0]);
    if hour.None? {
      return Err(ValueError);
    }
    var cron := Crontab(IntToString(minute.value), IntToString(hour.value), "*", "*");
    var frequency := GetOr(form.frequency, "daily");
    if frequency == "Weekly" {
      cron := cron.(dayOfWeek := "1");
    } else if frequency == "Monthly" {
      cron := cron.(dayOfMonth := "1");
    }
    return Ok(cron);
  }

  /** The update branch of `add_or_edit_report_schedule`. */
  method UpdateReportSchedule(db: Database, form: ReportForm) returns (status: nat)
    requires db.Valid() && Truthy(form.id)
    modifies db`tasks
    ensures db.Valid()
    ensures status in {200, 500}
    ensures status == 200 <==> Find(old(db.tasks), form.id.value).Some? && FormDelivery(form).Ok?
    ensures status != 200 ==> db.tasks == old(db.tasks)
    ensures status == 200 ==>
      var k := Find(old(db.tasks), form.id.value).value;
      db.tasks == old(db.tasks)[k := EditedReportTask(old(db.tasks)[k], form)]
  {
    var k := Find(db.tasks, form.id.value);
    if k.None? {
      // `.first()` gave None: AttributeError
      return 500;
    }
    var task := db.tasks[k.value];
    task := task.(kwargs := Some(FormArgs(form)));
    var cron := DeliveryCrontab(form);
    if cron.Err? {
      return 500;
    }
    task := task.(frequency := GetOr(form.frequency, "daily"));
    task := task.(name := form.name);
    task := task.(cron := cron.value);
    SaveKeepsKeys(db.tasks, db.nextId, k.value, task);
    db.tasks := db.tasks[k.value := task];
    return 200;
  }

  /** The create branch of `add_or_edit_report_schedule`: a new crontab, periodic task and scheduled task. */
  method CreateReportSchedule(db: Database, form: ReportForm) returns (status: nat)
    requires db.Valid()
    modifies db`tasks, db`nextId
    ensures db.Valid()
    ensures status in {200, 500}
    ensures status == 200 <==> FormDelivery(form).Ok?
    ensures status != 200 ==> db.tasks == old(db.tasks)
    ensures status == 200 ==> db.tasks == old(db.tasks) + [NewReportTask(old(db.nextId), form)]
    ensures db.nextId == old(db.nextId) + (if status == 200 then 1 else 0)
  {
    var cron := DeliveryCrontab(form);
    if cron.Err? {
      return 500;
    }
    var frequency := GetOr(form.frequency, "daily");
    var task := ScheduledTask(db.nextId, form.name, Some("Email"), frequency, true, None,
                              cron.value, Some(FormArgs(form)));
    InsertKeepsKeys(db.tasks, db.nextId, task);
    db.tasks := db.tasks + [task];
    db.nextId := db.nextId + 1;
    return 200;
  }

  /** `time(int(cron.hour), int(cron.minute))` for a report's single delivery instant. */
  function DeliveryTime(cron: Crontab): Result<Time, Exception> {
    TimeOf(cron.hour, cron.minute)
  }

  /**
   * A saved delivery time reads back as the time the form was submitted with: the
   * listing's `time(int(hour), int(minute))` on the stored text gives exactly what
   * `time(int(H), int(M))` gives on the submitted "H:M".
   */
  lemma DeliveryRoundTrip(form: ReportForm)
    requires FormDelivery(form).Ok?
    ensures DeliveryTime(ReportCron(form)) == ClockTime(GetOr(form.deliveryTime, ":"))
  {
    var p := Split(GetOr(form.deliveryTime, ":"), ':');
    ParseIntOfIntToString(ParseInt(p[1]).value);
    ParseIntOfIntToString(ParseInt(p[0]).value);
  }

  /**
   * An out-of-range delivery time is saved without complaint and only fails when the
   * report schedules are listed: "25:00" is stored as hour "25".
   */
  lemma DeliveryRangeUnchecked(form: ReportForm)
    requires form.deliveryTime == Some(Pad2(25) + ":" + Pad2(0))
    ensures FormDelivery(form).Ok?
    ensures DeliveryTime(ReportCron(form)).Err?
  {
    ParseIntOfPad2(25);
    ParseIntOfPad2(0);
    SplitPair(Pad2(25), ':', Pad2(0));
    assert FormDelivery(form) == Ok((IntToString(0), IntToString(25)));
    assert ReportCron(form).hour == IntToString(25);
    ParseIntOfIntToString(25);
  }

  /** One entry of `get_report_schedules`. */
  datatype ReportRow = ReportRow(
    id: nat,
    name: Option<string>,
    frequency: string,
    category: Option<string>,
    deliveryTime: string,
    dateRangeStart: Option<string>,
    dateRangeEnd: Option<string>,
    reportType: Option<string>)

  predicate IsReport(t: ScheduledTask) {
    t.category == Some("Email")
  }

  /** The entry for a report task delivered at `at`, with the fields kept in its kwargs. */
  function ReportEntry(t: ScheduledTask, at: Time): ReportRow
    requires at.hour < 24 && at.minute < 60
  {
    var args := t.kwargs;
    ReportRow(t.id, t.name, t.frequency, t.category, Format12h(at),
              if args.Some? then args.value.startDate else None,
              if args.Some? then args.value.endDate else None,
              if args.Some? then args.value.reportType else None)
  }

  function ReportRowOf(t: ScheduledTask): Result<ReportRow, Exception> {
    match DeliveryTime(t.cron)
    case Err(e) => Err(e)
    case Ok(at) => Ok(ReportEntry(t, at))
  }

  /** The delivery instant a report task created from an "HH:MM" form is saved with. */
  lemma NewReportDelivery(id: nat, form: ReportForm, h: nat, m: nat)
    requires h < 24 && m < 60
    requires form.deliveryTime == Some(Pad2(h) + ":" + Pad2(m))
    ensures FormDelivery(form).Ok?
    ensures DeliveryTime(NewReportTask(id, form).cron) == Ok(Time(h, m))
  {
    ParseIntOfPad2(h);
    ParseIntOfPad2(m);
    SplitPair(Pad2(h), ':', Pad2(m));
    DeliveryRoundTrip(form);
    ClockTimeOfPadded(h, m);
  }

  /** A report task created from a well-formed form is listed with its delivery time. */
  lemma NewReportListed(id: nat, form: ReportForm, h: nat, m: nat)
    requires h < 24 && m < 60
    requires form.deliveryTime == Some(Pad2(h) + ":" + Pad2(m))
    ensures FormDelivery(form).Ok?
    ensures Listing([NewReportTask(id, form)], IsReport, ReportRowOf) == Ok([ReportRow(
      id, form.name, GetOr(form.frequency, "daily"), Some("Email"), Format12h(Time(h, m)),
      form.dateRangeStart, form.dateRangeEnd, form.reportType)])
  {
    NewReportDelivery(id, form, h, m);
    SingleReportListed(NewReportTask(id, form));
  }

  lemma SingleReportListed(t: ScheduledTask)
    requires IsReport(t) && t.kwargs.Some? && DeliveryTime(t.cron).Ok?
    ensures Listing([t], IsReport, ReportRowOf) == Ok([ReportRow(
      t.id, t.name, t.frequency, t.category, Format12h(DeliveryTime(t.cron).value),
      t.kwargs.value.startDate, t.kwargs.value.endDate, t.kwargs.value.reportType)])
  {
    ListingSingle(t, IsReport, ReportRowOf);
  }

  /** `get_report_schedules` */
  method GetReportSchedules(db: Database) returns (r: Result<seq<ReportRow>, Exception>)
    ensures r == Listing(db.tasks, IsReport, ReportRowOf)
  {
    var objs: seq<ReportRow> := [];
    var i := 0;
    while i < |db.tasks|
      invariant 0 <= i <= |db.tasks|
      invariant Listing(db.tasks[..i], IsReport, ReportRowOf) == Ok(objs)
    {
      var task := db.tasks[i];
      ListingStep(db.tasks, IsReport, ReportRowOf, i);
      if IsReport(task) {
        var at := DeliveryTime(task.cron);
        if at.Err? {
          ListingFailFrom(db.tasks, IsReport, ReportRowOf, i);
          return Err(at.error);
        }
        objs := objs + [ReportEntry(task, at.value)];
      }
      i := i + 1;
    }
    assert db.tasks[..i] == db.tasks;
    return Ok(objs);
  }
}
