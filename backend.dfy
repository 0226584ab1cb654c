/** The `BackupNow` backend object: the settings document it heals, its
    registry of running threads and the flags of its timer path. */
module Backend {
  import opened Outcomes
  import opened Json
  import opened Healing
  import opened Registry

  /** `BackupNow.TIMER_JOB_NAME`, the registry name of the timer thread. */
  const TimerJobName := "timer"
  const NoTasksMessage := "There are no tasks scheduled."

  /** How `run_tasks` ends: `ready` is what the timer registry's query gave
      (its ready timer names, or the exception it raised) and `callback` is
      what `error_cb` does when called. Nothing catches either exception. */
  function TasksOutcome(ready: Result<seq<string>>, hasErrorCallback: bool, callback: Result<()>): (r: Result<()>)
    ensures r.Raise? <==> ready.Raise? || (ready == Ok([]) && hasErrorCallback && callback.Raise?)
    ensures r.Raise? ==> r.exc == if ready.Raise? then ready.exc else callback.exc
  {
    if ready.Raise? then Raise(ready.exc)
    else if ready.value == [] && hasErrorCallback then callback
    else Ok(())
  }

  class BackupNow {
    /** The settings document: the module-level `settings`, which `start` also
        stores as `self.settings`. */
    var settings: Items
    /** `self.threads`: name to thread handle. */
    var threads: Threads
    var runLevel: int
    var busy: bool
    /** `self.error`; `None` also stands for the attribute not set yet. */
    var error: Option<string>
    /** Whether `error_cb` is set. */
    var hasErrorCallback: bool
    /** The messages passed to `error_cb`, oldest first. */
    var reported: seq<string>

    /** `BackupNow()` bound to the settings document `settings`. */
    constructor (settings: Items)
      ensures this.settings == settings && threads == map[] && runLevel == 1
      ensures !busy && error == None && !hasErrorCallback && reported == []
    {
      this.settings := settings;
      threads := map[];
      runLevel := 1;
      busy := false;
      error := None;
      hasErrorCallback := false;
      reported := [];
    }

    /** The healing block of `start`: adds `jobs`, deletes a non-dictionary
        `taskmanager`, and creates a missing one seeded with the default timer. */
    method HealSettings()
      modifies this`settings
      ensures settings == Healed(old(settings))
    {
      if !HasKey(settings, "jobs") {
        settings := Put(settings, "jobs", Dict([]));
      }
      var addDefault := false;
      if HasKey(settings, "taskmanager") {
        if !Get(settings, "taskmanager").value.Dict? {
          settings := Remove(settings, "taskmanager");
        }
      }
      if !HasKey(settings, "taskmanager") {
        addDefault := true;
        settings := Put(settings, "taskmanager", Dict([("timers", Dict([]))]));
      }
      if addDefault {
        var added := AddDefaultTimerdict();
      }
    }

    /** `_add_default_timerdict` */
    method AddDefaultTimerdict() returns (r: Result<()>)
      modifies this`settings
      ensures r.Ok? <==> TimersReachable(old(settings))
      ensures r.Ok? ==> settings == WithTimerdict(old(settings), DefaultBackupName, DefaultTimerdict()).value
      ensures r.Raise? ==> r.exc == TypeError && settings == old(settings)
    {
      r := AddTimerdict(DefaultBackupName, DefaultTimerdict());
    }

    /** `_add_timerdict(key, timerdict)`, step by step on the document. */
    method AddTimerdict(key: string, timerdict: Value) returns (r: Result<()>)
      modifies this`settings
      ensures r.Ok? <==> TimersReachable(old(settings))
      ensures r.Ok? ==> settings == WithTimerdict(old(settings), key, timerdict).value
      ensures r.Raise? ==> r.exc == TypeError && settings == old(settings)
    {
      if !HasKey(settings, "taskmanager") {
        settings := Put(settings, "taskmanager", Dict([]));
      }
      var tm := Get(settings, "taskmanager").value;
      if !tm.Dict? {
        return Raise(TypeError);
      }
      if !HasKey(tm.items, "timers") {
        PutPut(old(settings), "taskmanager", tm, Dict(Put(tm.items, "timers", Dict([]))));
        tm := Dict(Put(tm.items, "timers", Dict([])));
        settings := Put(settings, "taskmanager", tm);
      }
      var timers := Get(tm.items, "timers").value;
      if !timers.Dict? {
        return Raise(TypeError);
      }
      ghost var original := if HasKey(old(settings), "taskmanager") then Get(old(settings), "taskmanager").value else Dict([]);
      if !HasKey(original.items, "timers") {
        PutPut(original.items, "timers", Dict([]), Dict(Put(timers.items, key, timerdict)));
      }
      var updated := Dict(Put(tm.items, "timers", Dict(Put(timers.items, key, timerdict))));
      PutPut(old(settings), "taskmanager", tm, updated);
      settings := Put(settings, "taskmanager", updated);
      r := Ok(());
    }

    /** The orphan check shared by `start_job` and `run_timer`: drops the entry
        for `name` when its thread is dead and tells whether one is running. */
    method CheckRunning(name: string, alive: set<Thread>) returns (running: bool)
      modifies this`threads
      ensures running == IsRunning(old(threads), alive, name)
      ensures threads == DiscardOrphan(old(threads), alive, name)
    {
      running := false;
      if name in threads {
        var thread := threads[name];
        if thread !in alive {
          threads := threads - {name};
        } else {
          running := true;
        }
      }
    }

    /** `start_job(job_name, job, progress_cb)`; `alive` holds the live threads. */
    method StartJob(jobName: string, job: Value, hasProgressCallback: bool, alive: set<Thread>)
      returns (r: Result<Event>)
      modifies this`threads
      ensures r == StartJobEvent(old(threads), alive, jobName, hasProgressCallback)
      ensures r == Ok(NoEvent) ==>
        && jobName in threads && fresh(threads[jobName]) && threads[jobName].target == RunJob(jobName, job)
        && threads == StartJobRegistry(old(threads), alive, jobName, hasProgressCallback, threads[jobName])
      ensures r != Ok(NoEvent) ==> threads == old(threads)
    {
      if !hasProgressCallback {
        return Raise(ValueError(CallbackMissing));
      }
      var running := CheckRunning(jobName, alive);
      if running {
        return Ok(AlreadyRunning(jobName));
      }
      var thread := new Thread(RunJob(jobName, job));
      threads := threads[jobName := thread];
      r := Ok(NoEvent);
    }

    /** `run_timer`: the same check for the timer's own name. The thread it
        then builds is never stored or started, so it has no effect here;
        `None` is the implicit return value. */
    method RunTimer(alive: set<Thread>) returns (r: Option<Event>)
      modifies this`threads
      ensures r == if IsRunning(old(threads), alive, TimerJobName) then Some(AlreadyRunning(TimerJobName)) else None
      ensures threads == DiscardOrphan(old(threads), alive, TimerJobName)
    {
      var running := CheckRunning(TimerJobName, alive);
      if running {
        return Some(AlreadyRunning(TimerJobName));
      }
      r := None;
    }

    /** One pass of the `stop_sync` loop: deletes every entry whose thread is dead. */
    method SweepDeadThreads(alive: set<Thread>)
      modifies this`threads
      ensures threads == Sweep(old(threads), alive)
    {
      var keys := threads.Keys;
      while keys != {}
        invariant keys <= threads.Keys <= old(threads).Keys
        invariant forall k :: k in threads ==> threads[k] == old(threads)[k]
        invariant forall k :: k in old(threads) && k !in keys ==> (k in threads <==> old(threads)[k] in alive)
        decreases keys
      {
        var key :| key in keys;
        if threads[key] !in alive {
          threads := threads - {key};
        }
        keys := keys - {key};
      }
      assert threads.Keys == Sweep(old(threads), alive).Keys;
    }

    /** `stop_sync`, against one liveness snapshot per polling pass. It
        returns (`returned`) once the registry is empty; `sleeps` are the waits
        between passes. If the snapshots run out first, `returned` is false. */
    method StopSync(polls: seq<set<Thread>>) returns (returned: bool, sleeps: seq<int>)
      modifies this`threads, this`runLevel
      ensures runLevel == 0
      ensures returned <==> threads == map[]
      ensures threads == Drain(old(threads), polls).0
      ensures sleeps == Waits(Drain(old(threads), polls).1)
    {
      runLevel := 0;
      var waitTime := InitialWait;
      sleeps := [];
      var i := 0;
      while threads != map[] && i < |polls|
        invariant 0 <= i <= |polls|
        invariant Drain(threads, polls[i..]).0 == Drain(old(threads), polls).0
        invariant Drain(old(threads), polls).1 == |sleeps| + Drain(threads, polls[i..]).1
        invariant sleeps == Waits(|sleeps|) && waitTime == Backoff(|sleeps|)
        invariant runLevel == 0
      {
        assert polls[i..][0] == polls[i] && polls[i..][1..] == polls[i + 1..];
        SweepDeadThreads(polls[i]);
        if threads != map[] {
          sleeps := sleeps + [waitTime];
          waitTime := waitTime + WaitIncrement;
          if waitTime > MaxWait {
            waitTime := MaxWait;
          }
        }
        i := i + 1;
      }
      returned := true;
      if threads != map[] {
        assert polls[i..] == [];
        returned := false;
      }
    }

    /** `show_error`: `callback` is what `error_cb` does when called, return
        normally or raise. */
    method ShowError(message: string, callback: Result<()>) returns (r: Result<()>)
      modifies this`error, this`reported
      ensures error == Some(message)
      ensures reported == old(reported) + if hasErrorCallback then [message] else []
      ensures r == if hasErrorCallback then callback else Ok(())
    {
      error := Some(message);
      r := Ok(());
      if hasErrorCallback {
        reported := reported + [message];
        r := callback;
      }
    }

    /** `run_tasks`, given the outcome of asking the timer registry for the
        timers ready now. */
    method RunTasks(ready: Result<seq<string>>, callback: Result<()>) returns (r: Result<()>)
      modifies this`error, this`reported
      ensures r == TasksOutcome(ready, hasErrorCallback, callback)
      ensures error == if ready == Ok([]) then Some(NoTasksMessage) else old(error)
      ensures reported == old(reported) + if ready == Ok([]) && hasErrorCallback then [NoTasksMessage] else []
    {
      if ready.Raise? {
        return Raise(ready.exc);
      }
      r := Ok(());
      if ready.value == [] {
        r := ShowError(NoTasksMessage, callback);
      }
    }

    /** `on_timer`: does nothing while busy; otherwise clears the error and
        runs the tasks once. `busy` is cleared only when `run_tasks` returns
        normally: an exception leaves it set, and every later call then
        does nothing. */
    method OnTimer(ready: Result<seq<string>>, callback: Result<()>) returns (r: Result<()>)
      modifies this`busy, this`error, this`reported
      ensures old(busy) ==> r == Ok(()) && busy && error == old(error) && reported == old(reported)
      ensures !old(busy) ==> r == TasksOutcome(ready, hasErrorCallback, callback)
      ensures !old(busy) ==> (busy <==> r.Raise?)
      ensures !old(busy) ==> error == if ready == Ok([]) then Some(NoTasksMessage) else None
      ensures !old(busy) ==> reported == old(reported) + if ready == Ok([]) && hasErrorCallback then [NoTasksMessage] else []
    {
      if busy {
        return Ok(());
      }
      busy := true;
      error := None;
      r := RunTasks(ready, callback);
      if r.Raise? {
        return;
      }
      busy := false;
    }
  }
}
