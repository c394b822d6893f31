/**
 * The persisted scheduling records the views and the cleanup task read and write:
 * a crontab row (django_celery_beat's CrontabSchedule), the scheduled task that owns
 * it together with its periodic-task row, and the table that holds them.
 */
module Store {
  import opened Wrappers

  /** A CrontabSchedule: every field is a text column. */
  datatype Crontab = Crontab(minute: string, hour: string, dayOfWeek: string, dayOfMonth: string)

  /** The report parameters kept, as JSON, in the periodic task's kwargs. */
  datatype ReportArgs = ReportArgs(
    emailList: string,
    format: string,
    startDate: Option<string>,
    endDate: Option<string>,
    reportType: Option<string>)

  /**
   * A ScheduledTask joined with its PeriodicTask (name, enabled, kwargs) and the
   * PeriodicTask's crontab; the two rows are created, edited and read together.
   */
  datatype ScheduledTask = ScheduledTask(
    id: nat,
    name: Option<string>,
    category: Option<string>,
    frequency: string,
    enabled: bool,
    disableAt: Option<int>,
    cron: Crontab,
    kwargs: Option<ReportArgs>)

  /** Position of the row whose primary key is `id` (`.filter(pk=id).first()`). */
  function Find(tasks: seq<ScheduledTask>, id: int): (r: Option<nat>)
    ensures r.Some? ==> r.value < |tasks| && tasks[r.value].id == id
    ensures r.Some? ==> forall j :: 0 <= j < r.value ==> tasks[j].id != id
    ensures r.None? ==> forall j :: 0 <= j < |tasks| ==> tasks[j].id != id
    decreases |tasks|
  {
    if |tasks| == 0 then None
    else if tasks[0].id == id then Some(0)
    else match Find(tasks[1..], id)
      case None => None
      case Some(k) => Some(k + 1)
  }

  /** Primary keys are unique and below the next key to be handed out. */
  ghost predicate KeysValid(tasks: seq<ScheduledTask>, nextId: nat) {
    && (forall i :: 0 <= i < |tasks| ==> tasks[i].id < nextId)
    && (forall i, j :: 0 <= i < j < |tasks| ==> tasks[i].id != tasks[j].id)
  }

  /** A row inserted under the next key keeps the keys valid once the counter advances. */
  lemma InsertKeepsKeys(tasks: seq<ScheduledTask>, nextId: nat, t: ScheduledTask)
    requires KeysValid(tasks, nextId) && t.id == nextId
    ensures KeysValid(tasks + [t], nextId + 1)
  {
    var r := tasks + [t];
    forall i, j | 0 <= i < j < |r|
      ensures r[i].id != r[j].id
    {
      if j == |tasks| {
        assert r[i] == tasks[i];
      } else {
        assert r[i] == tasks[i] && r[j] == tasks[j];
      }
    }
  }

  /** Saving a row under its own key keeps the keys valid. */
  lemma SaveKeepsKeys(tasks: seq<ScheduledTask>, nextId: nat, k: nat, t: ScheduledTask)
    requires KeysValid(tasks, nextId) && k < |tasks| && t.id == tasks[k].id
    ensures KeysValid(tasks[k := t], nextId)
  {
  }

  /**
   * The task table, in primary-key order, with the auto-increment counter and the
   * names handed to the worker queue (`run_crawler.delay(name)`).
   */
  class Database {
    var tasks: seq<ScheduledTask>
    var nextId: nat
    var queue: seq<string>

    ghost predicate Valid()
      reads this
    {
      KeysValid(tasks, nextId)
    }

    constructor (rows: seq<ScheduledTask>)
      requires forall i, j :: 0 <= i < j < |rows| ==> rows[i].id != rows[j].id
      ensures Valid()
      ensures tasks == rows && queue == []
    {
      tasks := rows;
      nextId := MaxId(rows) + 1;
      queue := [];
    }
  }

  function MaxId(rows: seq<ScheduledTask>): (m: nat)
    ensures forall i :: 0 <= i < |rows| ==> rows[i].id <= m
  {
    if |rows| == 0 then 0
    else var m := MaxId(rows[1..]); if rows[0].id > m then rows[0].id else m
  }
}
