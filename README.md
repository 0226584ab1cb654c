# BackupNow backend core in Dafny

This project models the core of the `BackupNow` backend (`backupnow/__init__.py`). The core covers five areas:

- **The relative-path helper** `getRelPath`.
- **Job-map validation.** `validate_operation` and `validate_jobs` collect error strings for jobs with a blank name, jobs without `operations`, and operations without `source`.
- **Settings healing.** `start` heals the settings document in a fixed order:
  - it adds a missing `jobs` map;
  - it deletes a `taskmanager` that is not a dictionary;
  - it seeds a missing `taskmanager` with the default timer through `_add_default_timerdict` / `_add_timerdict`.
- **The thread registry** (`self.threads`). `start_job` and `run_timer` discard orphaned entries and refuse to start a name twice. `stop_sync` polls the registry, deleting dead threads and waiting 1, 3, 5, … seconds, capped at 20, until the registry is empty.
- **The timer path and the CLI filter.** `on_timer`, `run_tasks` and `show_error` form the timer path. `main` filters the ready timers by `--backup-name`.

The code is split into modules:

- `Outcomes`: `Option`, `Result` and the Python exceptions the core can raise.
- `Json`: the settings document as a JSON value, with dictionaries as ordered key/value sequences so that Python's insertion order is kept. It also models Python's `in`, subscription, iteration and truthiness on such values.
- `Paths`, `Validation`, `Healing`, `Registry` and `Cli`: specification functions and the lemmas about them.
- `Backend`: the class `BackupNow`. Its methods update its fields (settings document, thread registry, run level, busy flag, error) step by step, as the source does. The methods for settings healing, `_add_timerdict`, the orphan check, `start_job`, `run_timer` and `stop_sync` are each proved equal to a specification function above. `show_error`, `run_tasks` and `on_timer` state their new fields directly, and their outcome through `TasksOutcome`.

Thread liveness (`is_alive()`) cannot be observed by the model. It is a parameter: the set of live thread handles. `stop_sync` takes one such set per polling pass.

## Model

| member | source | states |
|---|---|---|
| Paths.GetRelPath | backupnow/__init__.py:74-79 | Raises `RuntimeError` with the "Root … was lost from sub_path …" message exactly when `sub_path` does not start with `root`. Otherwise the result is `sub_path` with `root` and the one separator character after it dropped: `sub_path == root + sep + result`, or empty when nothing follows `root`. |
| Paths.RelPathOfJoined | backupnow/__init__.py:74-79 | Round trip: the relative path of `root + sep + name` is `name`. |
| Paths.RelPathOfRoot | backupnow/__init__.py:79 | The root itself, or the root plus one trailing character, gives the empty relative path. |
| Validation.ValidationErrors | backupnow/__init__.py:186-195 | The template's existing `errors` list, or a fresh empty one, is always a prefix of the result. A missing or falsy `jobs` returns that list unchanged. |
| Validation.ValidateJobs | backupnow/__init__.py:186-210 | The imperative `validate_jobs` (template handling, early return, job loop) returns exactly `ValidationErrors`, including the exception raised by a non-dictionary job map. |
| Validation.AppendAllJobErrors | backupnow/__init__.py:196-209 | The loop over `jobs.items()` appends every job's errors in job order. Otherwise it raises the first exception a job raises. |
| Validation.AppendJobErrors | backupnow/__init__.py:197-209 | One job appends, in order: a blank-name error; then either "Job '<name>' has no operations." (skipping the operations) or its operations' errors. |
| Validation.AppendOperationErrors | backupnow/__init__.py:203-209 | Appends each operation's errors, prefixed "operation <i+1> ", in operation order. |
| Validation.ValidateOperation | backupnow/__init__.py:176-184 | A dictionary operation yields "missing 'source'" exactly when it has no `source` key, and no error otherwise. The `in` test raises `TypeError` only for a value that is not a dictionary, list or string. |
| Validation.OperationErrorsExact | backupnow/__init__.py:203-209 | For a list of dictionary operations, the errors are exactly those of a front-to-back walk: one "operation <i+1> missing 'source'" for each operation i without `source`, in operation order, and nothing else. |
| Validation.OperationErrorsOfDicts | backupnow/__init__.py:176-184 | For a list of dictionary operations, no exception is raised. An error is reported exactly when some operation i lacks `source`, and it reads "operation <i+1> missing 'source'". There are at most as many errors as operations. |
| Validation.WellFormedJobErrors | backupnow/__init__.py:197-209 | A dictionary job whose `operations` is a list of dictionaries never raises. Its errors are the blank-name error followed by either the no-operations error or its operations' errors. |
| Validation.WellFormedJobsNeverRaise | backupnow/__init__.py:196-209 | A job map of well-formed jobs validates without raising. |
| Validation.JobsErrorsAppend | backupnow/__init__.py:196-209 | Ordering: the errors of jobs `a + b` are `a`'s errors followed by `b`'s. An exception in `a` wins over one in `b`. |
| Validation.OperationsRaisePersists | backupnow/__init__.py:203-204 | Once an operation raises, validating the rest of the list raises the same exception. |
| Validation.JobsRaisePersists | backupnow/__init__.py:196-204 | Once a job raises, validating the rest of the map raises the same exception. |
| Validation.MissingSourceScenario | backupnow/__init__.py:176-210 | A `default_backup` job whose only operation is `{}` yields exactly the template errors followed by "operation 1 missing 'source'". |
| Healing.DefaultTimerdict | backupnow/__init__.py:311-318 | The default timer is a dictionary with the distinct keys `time`, `span`, `commands` and `enabled`, in that order. It fires daily at "12:00", for the commands `["*"]`, and is enabled. |
| Healing.Healed | backupnow/__init__.py:249-269 | After the healing block, `jobs` is present and `taskmanager` is present and a dictionary. |
| Healing.WithTimerdict | backupnow/__init__.py:320-328 | `_add_timerdict` succeeds exactly when `taskmanager` is absent or a dictionary whose `timers` is absent or a dictionary. Otherwise it raises `TypeError`. |
| Healing.WithTimerdictSets | backupnow/__init__.py:320-328 | After `_add_timerdict`, `taskmanager['timers'][key]` is the given timer. Every other timer, every other `taskmanager` key and every other settings key keeps its value. |
| Healing.SeedDefault | backupnow/__init__.py:262-269 | Seeding `{'timers': {}}` and then adding the default timer puts the default taskmanager (one `default_backup` timer: 12:00, daily, all commands, enabled) as the last key. |
| Healing.HealedShape | backupnow/__init__.py:249-269 | The healed document is the document with `jobs` when `taskmanager` was a dictionary. Otherwise it is that document with the bad `taskmanager` deleted and the default one added. |
| Healing.HealedJobs | backupnow/__init__.py:249-250 | After healing, `jobs` is present, and an existing job map is unchanged. |
| Healing.HealedTaskmanager | backupnow/__init__.py:252-269 | A dictionary `taskmanager` is kept as it was. A missing or non-dictionary one is replaced by the default taskmanager. |
| Healing.HealedOtherKeys | backupnow/__init__.py:249-269 | Healing changes no key other than `jobs` and `taskmanager`. |
| Healing.HealedIdempotent | backupnow/__init__.py:249-269 | Healing an already healed document changes nothing. |
| Healing.HealedUniqueKeys | backupnow/__init__.py:249-269 | Healing keeps dictionary keys unique. |
| Healing.HealedKeyOrder | backupnow/__init__.py:249-269 | A missing `jobs` is appended as the last key. A replaced `taskmanager` moves to the end, as Python's delete-then-insert does. A dictionary `taskmanager` keeps the key order. |
| Backend.BackupNow.HealSettings | backupnow/__init__.py:249-269 | The in-place healing block leaves the settings document equal to `Healed` of the old document. |
| Backend.BackupNow.AddDefaultTimerdict | backupnow/__init__.py:305-309 | Adds the default timer under `default_backup` with the same success condition and effect as `_add_timerdict`. |
| Backend.BackupNow.AddTimerdict | backupnow/__init__.py:320-328 | The step-by-step updates equal `WithTimerdict`. On `TypeError` the document is left as it was. |
| Registry.DiscardOrphanKeepsLive | backupnow/__init__.py:364-370 | After the orphan check, the name is registered exactly when its thread was alive. No other entry changes. |
| Backend.BackupNow.CheckRunning | backupnow/__init__.py:364-370 | Reports whether the name is running and deletes a dead entry for it, as `DiscardOrphan` says. |
| Backend.BackupNow.StartJob | backupnow/__init__.py:359-384 | Without `progress_cb` it raises `ValueError("Set the progress_cb to a method.")` and touches nothing. A running name returns `{'error': '<name> is already running.', 'status': 'done'}`. Otherwise it registers a fresh thread for `run_job_sync(job_name, job)` and returns `{}`. |
| Registry.StartJobEffect | backupnow/__init__.py:359-384 | `start_job` never changes another name's entry. With a callback, the name is afterwards registered, either to the live thread or to the new one. "Already running" leaves the registry as it was. |
| Registry.StartJobTwice | backupnow/__init__.py:359-384 | Two starts of one name while the first thread lives: the first spawns, and the second reports "already running" and changes nothing. |
| Backend.BackupNow.RunTimer | backupnow/__init__.py:424-444 | Returns the "timer is already running." event when the `timer` entry is alive. Otherwise it returns `None`. It discards a dead `timer` entry either way. |
| Backend.BackupNow.SweepDeadThreads | backupnow/__init__.py:339-348 | One polling pass deletes exactly the entries whose threads are dead and keeps the rest unchanged. |
| Backend.BackupNow.StopSync | backupnow/__init__.py:330-357 | Sets the run level to 0. The registry afterwards is `Drain` of the old one over the passes. It returns once the registry is empty. Its waits are the first waits of the back-off schedule. |
| Registry.BackoffSchedule | backupnow/__init__.py:336-356 | The n-th wait is `min(2n+1, 20)`: 1, 3, …, 19, then 20. |
| Registry.BackoffMonotone | backupnow/__init__.py:354-356 | Waits never shrink. |
| Registry.DrainKeepsEntries | backupnow/__init__.py:338-357 | Polling only removes entries. It waits at most once per pass, and while threads remain it waits after every pass. |
| Registry.DrainRemovesDead | backupnow/__init__.py:339-348 | An entry whose thread is dead at any pass is gone at the end. |
| Registry.DrainSurvivorsAlive | backupnow/__init__.py:338-357 | Every entry left at the end was alive at every pass. |
| Registry.DrainEmptiesWhenAllFinish | backupnow/__init__.py:338-357 | Once one pass finds every registered thread finished, `stop_sync` ends with an empty registry. |
| Backend.BackupNow.ShowError | backupnow/__init__.py:401-404 | Stores the message as the error before anything else. When `error_cb` is set, the message is passed to it, and an exception from the callback propagates. |
| Backend.TasksOutcome | backupnow/__init__.py:395-404 | `run_tasks` raises exactly when the ready-timer query raises, or when nothing is ready and the set `error_cb` raises. It raises that same exception. |
| Backend.BackupNow.RunTasks | backupnow/__init__.py:395-399 | With no ready timers, it shows "There are no tasks scheduled." Otherwise the error state is left unchanged, including when the query raises. Its outcome is `TasksOutcome`. |
| Backend.BackupNow.OnTimer | backupnow/__init__.py:453-465 | While busy it changes nothing. Otherwise it clears the error and runs the tasks once, so the error is "There are no tasks scheduled." or none. `busy` is cleared only when `run_tasks` returns normally. An exception propagates and leaves `busy` set, so every later call does nothing. |
| Cli.FilterReady | backupnow/__init__.py:543-557 | With a non-empty `--backup-name`, exactly the ready timers of that name remain, in order. Otherwise all ready timers remain. |
| Cli.NamedMembers | backupnow/__init__.py:548-550 | A ready timer is kept exactly when it has the requested name. |
| Cli.NamedAtMostOne | backupnow/__init__.py:543-557 | Timer names are dictionary keys, so at most one timer survives the filter. |

## Left out

- `find_resource` and `getRelPaths`: they walk the file system.
- Settings discovery, loading and saving in `start`, and the comment keys it writes (lines 240-247). These are file I/O and constant strings that no modelled property reads.
- `TaskManager`, `TMTimer`, `JobsWatcher`, `deserialize_timers` and `serialize_timers` are not part of this model. `run_tasks` receives the outcome of `get_ready_timers` as a parameter: the ready timer names, or the exception raised. What `error_cb` does (return or raise) is a parameter too.
- The clock (`datetime.now`), logging, `argparse`, `echo0` and the deprecated `run_tk_timer` are left out.
- Threads are not started, and `run_job_sync` (a one-second sleep, then a progress callback) and `run_timer_sync` (the loop calling `on_timer` while the run level is positive) are not modelled. A thread handle records what it was created to run.
- Backend.BackupNow.StopSync: the sleeping itself is not modelled, and neither is the termination of the loop, which depends on the threads ending. The model sees one liveness snapshot per pass and stops, returning false, when the snapshots run out. In the source, liveness is read on each `is_alive()` call.
- Backend.BackupNow.StartJob: a registry entry holding `None` (the `not thread` test) cannot occur in the model, because entries are always thread handles.
- Validation.ValidateJobs: `validate_jobs` reads the module-level `settings`, which here is a parameter. It also returns, and mutates, the `event_template` dictionary; only that dictionary's `errors` list is modelled.
- Validation.ValidateJobs: interpreter exceptions (`AttributeError`, `TypeError`, `KeyError`) carry no message. JSON numbers are integers only.
- Backend.BackupNow.constructor: the document is handed to the constructor, and `self.settings` and the module-level `settings` are one field. Python's two names for one dictionary are not modelled separately.
- Backend.BackupNow.ShowError: an `error` attribute that was never set is modelled as `None`.
- Cli.FilterReady: the ready timers are a sequence of (name, timer) pairs in dictionary order. Insertion into `matching_timers` is an append, which is the same because names are distinct keys. The timers themselves are opaque.
