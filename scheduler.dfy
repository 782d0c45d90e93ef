// The task scheduler: the registry of tasks, each with its observable
// state (enabled, running, the bounded run history, the next run), the
// running guard around an execution, and the enabled flag persisted in the
// settings table. The cron library's parser and its next-run computation,
// and the clock, are inputs.
module Scheduler {
  import opened Wrappers
  import SettingsDb

  /** At most this many runs are kept, most recent first. */
  const MaxHistory := 50

  datatype Status = Success | Error

  /** One finished execution. */
  datatype RunEntry = RunEntry(startedAt: string, finishedAt: string, durationMs: int, status: Status, error: Option<string>)

  /** How `task.execute()` settled: resolved, or rejected with a message. */
  datatype Outcome = Resolved | Rejected(message: string)

  /** The entry recorded for a run that settled with `outcome`. */
  function RunOf(outcome: Outcome, startedAt: string, finishedAt: string, durationMs: int): (r: RunEntry)
    ensures r.startedAt == startedAt && r.finishedAt == finishedAt && r.durationMs == durationMs
    ensures r.status == Success <==> outcome.Resolved?
    ensures r.status == Error <==> r.error.Some?
    ensures outcome.Rejected? ==> r.error == Some(outcome.message)
  {
    match outcome
    case Resolved => RunEntry(startedAt, finishedAt, durationMs, Success, None)
    case Rejected(m) => RunEntry(startedAt, finishedAt, durationMs, Error, Some(m))
  }

  /** The history after truncation to `MaxHistory`: the longest prefix of
   *  `h` that fits. */
  function Capped(h: seq<RunEntry>): (r: seq<RunEntry>)
    ensures |r| <= |h| && |r| <= MaxHistory && r == h[..|r|]
    ensures |r| == if |h| < MaxHistory then |h| else MaxHistory
  {
    if |h| > MaxHistory then h[..MaxHistory] else h
  }

  /** A push puts the new run first and moves every kept run one place down. */
  lemma PushShifts(h: seq<RunEntry>, run: RunEntry)
    ensures Capped([run] + h)[0] == run
    ensures forall i :: 0 <= i < |h| && i + 1 < MaxHistory ==> Capped([run] + h)[i + 1] == h[i]
    ensures |Capped([run] + h)| == if |h| < MaxHistory then |h| + 1 else MaxHistory
  {
    var r := Capped([run] + h);
    forall i | 0 <= i < |h| && i + 1 < MaxHistory
      ensures r[i + 1] == h[i]
    {
      assert r[i + 1] == ([run] + h)[i + 1];
    }
  }

  /** The settings key of a task's enabled flag. */
  function EnabledKey(name: string): (k: string)
    ensures |k| == |name| + 13 && k[5..|k| - 8] == name
  {
    "task." + name + ".enabled"
  }

  /** Different tasks never share an enabled flag. */
  lemma EnabledKeyInjective(a: string, b: string)
    ensures EnabledKey(a) == EnabledKey(b) <==> a == b
  {
    if EnabledKey(a) == EnabledKey(b) {
      var k := EnabledKey(a);
      assert a == k[5..|k| - 8] == b;
    }
  }

  /** `loadTaskEnabled`: true when no value is stored, and otherwise true
   *  exactly for the stored text 'true'. */
  function LoadTaskEnabled(store: SettingsDb.Store, name: string): (r: bool)
    reads store
    ensures EnabledKey(name) !in store.rows ==> r
    ensures EnabledKey(name) in store.rows ==> (r <==> store.rows[EnabledKey(name)].value == "true")
  {
    store.Get(EnabledKey(name), "true") == "true"
  }

  /** `saveTaskEnabled`: the flag is written as 'true' or 'false', in the
   *  'tasks' category; it reads back as written and no other task's flag
   *  moves. */
  method SaveTaskEnabled(store: SettingsDb.Store, name: string, enabled: bool, now: string)
    modifies store
    ensures store.rows == old(store.rows)[EnabledKey(name) :=
      SettingsDb.Setting(SettingsDb.BoolText(enabled), "tasks", "Enable/disable " + name + " task", now)]
    ensures LoadTaskEnabled(store, name) == enabled
    ensures forall other :: other != name ==> LoadTaskEnabled(store, other) == old(LoadTaskEnabled(store, other))
  {
    store.Update(EnabledKey(name), SettingsDb.BoolText(enabled), Some("tasks"), Some("Enable/disable " + name + " task"), now);
    forall other | other != name
      ensures LoadTaskEnabled(store, other) == old(LoadTaskEnabled(store, other))
    {
      EnabledKeyInjective(name, other);
    }
  }

  function AlreadyRunning(name: string): string
  {
    "Task \"" + name + "\" is already running"
  }

  function UnknownTask(name: string): string
  {
    "Unknown task: \"" + name + "\""
  }

  function InvalidCron(expr: string): string
  {
    "Invalid cron expression: \"" + expr + "\""
  }

  /** A registered task: its `TaskState` together with whether its cron job
   *  is started. */
  class TaskState {
    const name: string
    const description: string
    var cronExpression: string
    const timezone: string
    var enabled: bool
    var running: bool
    var lastRun: Option<RunEntry>
    var history: seq<RunEntry>
    var nextRun: Option<string>
    var jobStarted: bool

    /** The history is bounded and `lastRun` is its head; a started job
     *  belongs to an enabled task. */
    predicate Valid()
      reads this
    {
      |history| <= MaxHistory
      && (lastRun.None? <==> history == [])
      && (history != [] ==> lastRun == Some(history[0]))
      && (jobStarted ==> enabled)
    }

    /** The state `registerTask` builds: the persisted flag, not running,
     *  no runs, the computed next run and a job that is not yet started. */
    constructor (name: string, description: string, cronExpression: string, timezone: string, enabled: bool, computed: Option<string>)
      ensures this.name == name && this.description == description
      ensures this.cronExpression == cronExpression && this.timezone == timezone
      ensures this.enabled == enabled && !running && !jobStarted
      ensures lastRun.None? && history == [] && nextRun == computed
      ensures Valid()
    {
      this.name := name;
      this.description := description;
      this.cronExpression := cronExpression;
      this.timezone := timezone;
      this.enabled := enabled;
      running := false;
      lastRun := None;
      history := [];
      nextRun := computed;
      jobStarted := false;
    }

    /** `pushHistory`: the run becomes `lastRun` and the head of the capped
     *  history. */
    method PushHistory(run: RunEntry)
      requires Valid()
      modifies this
      ensures lastRun == Some(run) && history == Capped([run] + old(history))
      ensures history[0] == run && |history| <= MaxHistory
      ensures enabled == old(enabled) && running == old(running) && nextRun == old(nextRun)
      ensures cronExpression == old(cronExpression) && jobStarted == old(jobStarted)
      ensures Valid()
    {
      PushShifts(history, run);
      lastRun := Some(run);
      history := [run] + history;
      if |history| > MaxHistory {
        history := history[..MaxHistory];
      }
    }

    /** The start of `executeTask`: refused while a run is in progress,
     *  otherwise the task is marked running. */
    method Begin() returns (r: Result<(), string>)
      requires Valid()
      modifies this
      ensures old(running) ==> r == Err(AlreadyRunning(name)) && running
      ensures !old(running) ==> r.Ok? && running
      ensures enabled == old(enabled) && lastRun == old(lastRun) && history == old(history)
      ensures nextRun == old(nextRun) && cronExpression == old(cronExpression) && jobStarted == old(jobStarted)
      ensures Valid()
    {
      if running {
        r := Err(AlreadyRunning(name));
      } else {
        running := true;
        r := Ok(());
      }
    }

    /** The end of `executeTask`, once the task's promise has settled: one
     *  entry is recorded, the guard is released and the next run is
     *  recomputed, or cleared for a disabled task. */
    method Finish(outcome: Outcome, startedAt: string, finishedAt: string, durationMs: int, computed: Option<string>)
      returns (run: RunEntry)
      requires Valid() && running
      modifies this
      ensures run == RunOf(outcome, startedAt, finishedAt, durationMs)
      ensures !running && lastRun == Some(run) && history == Capped([run] + old(history))
      ensures nextRun == if enabled then computed else None
      ensures enabled == old(enabled) && cronExpression == old(cronExpression) && jobStarted == old(jobStarted)
      ensures Valid()
    {
      run := RunOf(outcome, startedAt, finishedAt, durationMs);
      PushHistory(run);
      running := false;
      nextRun := if enabled then computed else None;
    }

    /** `executeTask` when nothing else runs the task while it is awaited. */
    method Execute(outcome: Outcome, startedAt: string, finishedAt: string, durationMs: int, computed: Option<string>)
      returns (r: Result<RunEntry, string>)
      requires Valid()
      modifies this
      ensures old(running) ==> r == Err(AlreadyRunning(name)) && running && history == old(history)
      ensures !old(running) ==> r == Ok(RunOf(outcome, startedAt, finishedAt, durationMs))
      ensures !old(running) ==> !running && history == Capped([r.value] + old(history)) && lastRun == Some(r.value)
      ensures !old(running) ==> nextRun == if enabled then computed else None
      ensures old(running) ==> nextRun == old(nextRun)
      ensures enabled == old(enabled) && cronExpression == old(cronExpression) && jobStarted == old(jobStarted)
      ensures Valid()
    {
      var started := Begin();
      if started.Err? {
        r := Err(started.error);
      } else {
        var run := Finish(outcome, startedAt, finishedAt, durationMs, computed);
        r := Ok(run);
      }
    }

    /** The rescheduling part of `updateCron`, with the new job started only
     *  for an enabled task. */
    method Reschedule(newCron: string, computed: Option<string>)
      requires Valid()
      modifies this
      ensures cronExpression == newCron && jobStarted == enabled
      ensures nextRun == if enabled then computed else None
      ensures enabled == old(enabled) && running == old(running)
      ensures lastRun == old(lastRun) && history == old(history)
      ensures Valid()
    {
      cronExpression := newCron;
      nextRun := if enabled then computed else None;
      jobStarted := enabled;
    }

    /** The rescheduling part of `updateCron` as written: the new job is
     *  created with `scheduled: true` whatever the enabled flag says. */
    method RescheduleAsWritten(newCron: string, computed: Option<string>)
      modifies this
      ensures cronExpression == newCron && jobStarted
      ensures nextRun == if enabled then computed else None
      ensures enabled == old(enabled) && running == old(running)
      ensures lastRun == old(lastRun) && history == old(history)
    {
      cronExpression := newCron;
      nextRun := if enabled then computed else None;
      jobStarted := true;
    }

    /** The state change of `setTaskEnabled`. */
    method SetEnabled(on: bool, computed: Option<string>)
      requires Valid()
      modifies this
      ensures enabled == on && jobStarted == on
      ensures nextRun == if on then computed else None
      ensures running == old(running) && cronExpression == old(cronExpression)
      ensures lastRun == old(lastRun) && history == old(history)
      ensures Valid()
    {
      jobStarted := on;
      enabled := on;
      nextRun := if on then computed else None;
    }
  }

  /** A disabled task whose cron is updated as written has its job started
   *  while it still shows as disabled. */
  method DisabledTaskStartedAsWritten() returns (t: TaskState)
    ensures !t.enabled && t.jobStarted && t.nextRun.None? && !t.Valid()
  {
    t := new TaskState("erp-postgres-sync", "", "0 6 * * *", "America/Tijuana", false, None);
    t.RescheduleAsWritten("0 7 * * *", Some("2026-01-01T15:00:00.000Z"));
  }

  /** The registry: task name to its state. */
  class Registry {
    var tasks: map<string, TaskState>

    /** Each task is filed under its own name, in its own object, and is
     *  valid. */
    predicate Valid()
      reads this, tasks.Values
    {
      (forall n :: n in tasks ==> tasks[n].name == n && tasks[n].Valid())
    }

    constructor ()
      ensures tasks == map[] && Valid()
    {
      tasks := map[];
    }

    /** `registerTask`: a name already registered is skipped; otherwise a
     *  fresh state with the persisted enabled flag is filed under it. */
    method Register(name: string, description: string, cronExpression: string, timezone: string,
                    store: SettingsDb.Store, computed: Option<string>) returns (added: bool)
      requires Valid()
      modifies this
      ensures Valid()
      ensures added <==> name !in old(tasks)
      ensures !added ==> tasks == old(tasks)
      ensures added ==> name in tasks && fresh(tasks[name]) && tasks == old(tasks)[name := tasks[name]]
      ensures added ==> tasks[name].enabled == LoadTaskEnabled(store, name) && !tasks[name].running
      ensures added ==> tasks[name].history == [] && tasks[name].nextRun == computed
      ensures added ==> tasks[name].cronExpression == cronExpression && !tasks[name].jobStarted
    {
      if name in tasks {
        added := false;
      } else {
        var enabled := LoadTaskEnabled(store, name);
        var t := new TaskState(name, description, cronExpression, timezone, enabled, computed);
        tasks := tasks[name := t];
        added := true;
      }
    }

    /** `triggerTask`: an unknown name is refused; otherwise `executeTask`. */
    method Trigger(name: string, outcome: Outcome, startedAt: string, finishedAt: string, durationMs: int, computed: Option<string>)
      returns (r: Result<RunEntry, string>)
      requires Valid()
      modifies if name in tasks then {tasks[name]} else {}
      ensures Valid()
      ensures name !in tasks ==> r == Err(UnknownTask(name))
      ensures name in tasks && old(tasks[name].running) ==> r == Err(AlreadyRunning(name))
      ensures name in tasks && !old(tasks[name].running) ==>
        r == Ok(RunOf(outcome, startedAt, finishedAt, durationMs)) && !tasks[name].running
        && tasks[name].history == Capped([r.value] + old(tasks[name].history))
    {
      if name !in tasks {
        r := Err(UnknownTask(name));
      } else {
        var t := tasks[name];
        r := t.Execute(outcome, startedAt, finishedAt, durationMs, computed);
      }
    }

    /** `updateCron`: an invalid expression, then an unknown name, is
     *  refused before anything changes; otherwise the task is rescheduled. */
    method UpdateCron(name: string, newCron: string, valid: bool, computed: Option<string>) returns (r: Result<(), string>)
      requires Valid()
      modifies if name in tasks then {tasks[name]} else {}
      ensures Valid()
      ensures !valid ==> r == Err(InvalidCron(newCron)) && (name in tasks ==> unchanged(tasks[name]))
      ensures valid && name !in tasks ==> r == Err(UnknownTask(name))
      ensures valid && name in tasks ==>
        r.Ok? && tasks[name].cronExpression == newCron && tasks[name].enabled == old(tasks[name].enabled)
        && tasks[name].nextRun == (if tasks[name].enabled then computed else None)
        && tasks[name].jobStarted == tasks[name].enabled
    {
      if !valid {
        r := Err(InvalidCron(newCron));
      } else if name !in tasks {
        r := Err(UnknownTask(name));
      } else {
        var t := tasks[name];
        t.Reschedule(newCron, computed);
        r := Ok(());
      }
    }

    /** `setTaskEnabled`: an unknown name is refused; otherwise the flag is
     *  set, the job started or stopped, the next run recomputed or cleared,
     *  and the flag persisted so that the next registration reads it back. */
    method SetTaskEnabled(name: string, on: bool, computed: Option<string>, store: SettingsDb.Store, now: string)
      returns (r: Result<(), string>)
      requires Valid()
      modifies store, if name in tasks then {tasks[name]} else {}
      ensures Valid()
      ensures name !in tasks ==> r == Err(UnknownTask(name)) && store.rows == old(store.rows)
      ensures name in tasks ==>
        r.Ok? && tasks[name].enabled == on && tasks[name].jobStarted == on
        && tasks[name].nextRun == (if on then computed else None)
        && LoadTaskEnabled(store, name) == on
      ensures forall other :: other != name ==> LoadTaskEnabled(store, other) == old(LoadTaskEnabled(store, other))
    {
      if name !in tasks {
        r := Err(UnknownTask(name));
      } else {
        var t := tasks[name];
        t.SetEnabled(on, computed);
        SaveTaskEnabled(store, name, on, now);
        r := Ok(());
      }
    }
  }
}
