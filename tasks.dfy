/**
 * trackingapp/tasks.py: the crawler registry, `run_crawler`'s resolve-or-raise,
 * and the periodic cleanup that disables scheduled tasks past their disable time.
 */
module Tasks {
  import opened Wrappers
  import opened Python
  import opened Store

  // ---------------------------------------------------------------------------
  // crawler_classes

  /** A crawler class as bound in the module namespace: where it was imported from and its name. */
  datatype Handler = Handler(source: string, className: string)

  /**
   * The module namespace after the twelve `from tracking.Imports.<source> import <class>`
   * lines, executed in file order: each import (re)binds its class name, so the
   * Nashville import replaces the first binding of `CSXImports`.
   */
  function Namespace(): map<string, Handler> {
    map[]
      ["BCTImports" := Handler("bct_imports", "BCTImports")]
      ["BPTImports" := Handler("bpt_imports", "BPTImports")]
      ["CSXImports" := Handler("csx_imports", "CSXImports")]
      ["CSXImports" := Handler("csx_nashville_imports", "CSXImports")]
      ["VAPortsImports" := Handler("vaports_imports", "VAPortsImports")]
      ["GPAImports" := Handler("gpa_imports", "GPAImports")]
      ["NSRRImports" := Handler("nsrr_imports", "NSRRImports")]
      ["SGRTImports" := Handler("sgrt_imports", "SGRTImports")]
      ["UPRRImports" := Handler("uprr_imports", "UPRRImports")]
      ["CNImports" := Handler("cn_imports", "CNImports")]
      ["SCImports" := Handler("sc_imports", "SCImports")]
      ["BNSFImports" := Handler("bnsf_imports", "BNSFImports")]
  }

  /** `crawler_classes`: registry key to the class the key's name is bound to. */
  function CrawlerClasses(): map<string, Handler> {
    var b := Namespace();
    map[
      "bct_imports" := b["BCTImports"],
      "bpt_imports" := b["BPTImports"],
      "csx_imports" := b["CSXImports"],
      "csx_nashville_imports" := b["CSXImports"],
      "vaports_imports" := b["VAPortsImports"],
      "gpa_imports" := b["GPAImports"],
      "nsrr_imports" := b["NSRRImports"],
      "sgrt_imports" := b["SGRTImports"],
      "uprr_imports" := b["UPRRImports"],
      "cn_imports" := b["CNImports"],
      "sc_imports" := b["SCImports"],
      "bnsf_imports" := b["BNSFImports"]
    ]
  }

  /** The registry holds exactly these twelve names. */
  lemma RegistryKeys()
    ensures CrawlerClasses().Keys == {
      "bct_imports", "bpt_imports", "csx_imports", "csx_nashville_imports",
      "vaports_imports", "gpa_imports", "nsrr_imports", "sgrt_imports",
      "uprr_imports", "cn_imports", "sc_imports", "bnsf_imports"}
  {
  }

  /**
   * Every key but "csx_imports" resolves to the class of the module it names; the
   * Nashville import rebinds `CSXImports`, so both CSX keys run the Nashville crawler.
   */
  lemma RegistryResolution(k: string)
    requires k in CrawlerClasses()
    ensures k != "csx_imports" ==> CrawlerClasses()[k].source == k
    ensures k == "csx_imports" ==> CrawlerClasses()[k] == Handler("csx_nashville_imports", "CSXImports")
  {
  }

  // ---------------------------------------------------------------------------
  // run_crawler

  /**
   * `run_crawler`: the class it instantiates and runs for `crawler`, or the
   * exception it raises for a name outside the registry.
   */
  function RunCrawler(crawler: string): (r: Result<Handler, Exception>)
    ensures r.Ok? <==> crawler in CrawlerClasses()
    ensures r.Ok? ==> r.value == CrawlerClasses()[crawler]
    ensures r.Err? ==> r.error == Raised("Invalid Crawler Name")
  {
    if crawler in CrawlerClasses() then Ok(CrawlerClasses()[crawler])
    else Err(Raised("Invalid Crawler Name"))
  }

  // ---------------------------------------------------------------------------
  // scheduled_task_cleanup

  /** `disable_datetime <= now`; a null disable time never matches. */
  predicate Expired(t: ScheduledTask, now: int) {
    t.disableAt.Some? && t.disableAt.value <= now
  }

  /** One row of the bulk update: enabled and expired rows are switched off. */
  function Swept(t: ScheduledTask, now: int): ScheduledTask {
    if t.enabled && Expired(t, now) then t.(enabled := false) else t
  }

  function Sweep(tasks: seq<ScheduledTask>, now: int): (r: seq<ScheduledTask>)
    ensures |r| == |tasks|
  {
    seq(|tasks|, i requires 0 <= i < |tasks| => Swept(tasks[i], now))
  }

  /**
   * `scheduled_task_cleanup` as it is meant to work: one bulk update of the task
   * table that switches off every enabled task past its disable time.
   */
  method ScheduledTaskCleanup(db: Database, now: int)
    requires db.Valid()
    modifies db`tasks
    ensures db.Valid()
    ensures db.tasks == Sweep(old(db.tasks), now)
  {
    db.tasks := Sweep(db.tasks, now);
  }

  /**
   * After the sweep a task is enabled exactly when it was enabled and had not
   * expired; nothing but the enabled flag ever changes.
   */
  lemma SweepEffect(tasks: seq<ScheduledTask>, now: int, i: nat)
    requires i < |tasks|
    ensures Sweep(tasks, now)[i].enabled <==> tasks[i].enabled && !Expired(tasks[i], now)
    ensures Sweep(tasks, now)[i] == tasks[i].(enabled := Sweep(tasks, now)[i].enabled)
    ensures tasks[i].disableAt.None? ==> Sweep(tasks, now)[i] == tasks[i]
    ensures !tasks[i].enabled ==> Sweep(tasks, now)[i] == tasks[i]
  {
  }

  /**
   * Sweeping at `t1` and then at a later `t2` is the same as sweeping once at
   * `t2`; with `t1 == t2` this is idempotence.
   */
  lemma SweepAbsorbs(tasks: seq<ScheduledTask>, t1: int, t2: int)
    requires t1 <= t2
    ensures Sweep(Sweep(tasks, t1), t2) == Sweep(tasks, t2)
  {
  }

  // ---------------------------------------------------------------------------
  // scheduled_task_cleanup as written

  /** The keyword `scheduled_task_cleanup` passes to `update()`. */
  const CleanupKeyword: string := "celery_task__enabled"

  /**
   * A keyword that follows a relation (`<relation>__<field>`). Django model field names
   * cannot contain "__", and `QuerySet.update()` sets only concrete fields of the
   * queryset's own table, so it raises FieldDoesNotExist for such a keyword before it
   * writes any row.
   */
  predicate SpansRelation(keyword: string) {
    exists i :: 0 <= i < |keyword| - 1 && keyword[i] == '_' && keyword[i + 1] == '_'
  }

  /** `update(<keyword>=False)` on the expired, enabled tasks: the new table or the exception. */
  function UpdateAsWritten(tasks: seq<ScheduledTask>, now: int, keyword: string): (r: Result<seq<ScheduledTask>, Exception>)
    ensures r.Ok? ==> r.value == Sweep(tasks, now)
  {
    if SpansRelation(keyword) then Err(FieldDoesNotExist(keyword)) else Ok(Sweep(tasks, now))
  }

  /**
   * As written, the cleanup's keyword spans the relation to the periodic task, so every
   * run raises and no task is ever disabled.
   */
  lemma CleanupAsWrittenRaises(tasks: seq<ScheduledTask>, now: int)
    ensures UpdateAsWritten(tasks, now, CleanupKeyword) == Err(FieldDoesNotExist(CleanupKeyword))
  {
    assert CleanupKeyword[11] == '_' && CleanupKeyword[12] == '_';
  }

  /**
   * An enabled task whose disable time has passed: the intended sweep switches it off,
   * while the cleanup as written leaves the table as it was.
   */
  lemma CleanupAsWrittenExample(t: ScheduledTask, now: int)
    requires t.enabled && t.disableAt == Some(now)
    ensures !Sweep([t], now)[0].enabled
    ensures UpdateAsWritten([t], now, CleanupKeyword).Err?
  {
    CleanupAsWrittenRaises([t], now);
  }
}
