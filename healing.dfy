/** The shape the backend gives the settings document before it reads timers
    from it: the healing block of `BackupNow.start`, `_add_timerdict` and
    `default_timerdict`, as functions of the document. */
module Healing {
  import opened Outcomes
  import opened Json

  const DefaultBackupName := "default_backup"

  /** `BackupNow.default_timerdict()`: every day at 12:00 UTC, all jobs, enabled. */
  function DefaultTimerdict(): (r: Value)
    ensures r.Dict? && UniqueKeys(r.items)
    ensures Keys(r.items) == ["time", "span", "commands", "enabled"]
    ensures Get(r.items, "time") == Some(Str("12:00")) && Get(r.items, "span") == Some(Str("daily"))
    ensures Get(r.items, "commands") == Some(List([Str("*")])) && Get(r.items, "enabled") == Some(Bool(true))
  {
    Dict([("time", Str("12:00")), ("span", Str("daily")), ("commands", List([Str("*")])), ("enabled", Bool(true))])
  }

  /** The `taskmanager` entry of a document that had none: one default timer. */
  function DefaultTaskmanager(): Value
  {
    Dict([("timers", Dict([(DefaultBackupName, DefaultTimerdict())]))])
  }

  /** The entries of `taskmanager`, empty when it is absent or not a dictionary. */
  function TaskmanagerItems(doc: Items): Items
  {
    match Get(doc, "taskmanager")
    case Some(Dict(tm)) => tm
    case _ => []
  }

  /** The entries of `taskmanager['timers']`, empty when either is absent or not a dictionary. */
  function TimerItems(doc: Items): Items
  {
    match Get(TaskmanagerItems(doc), "timers")
    case Some(Dict(ts)) => ts
    case _ => []
  }

  /** `taskmanager` is absent, or a dictionary whose `timers` is absent or a dictionary. */
  predicate TimersReachable(doc: Items)
  {
    match Get(doc, "taskmanager")
    case None => true
    case Some(tm) =>
      tm.Dict? && (match Get(tm.items, "timers") case None => true case Some(ts) => ts.Dict?)
  }

  /** `_add_timerdict(key, timerdict)`: creates `taskmanager` and `timers` when
      missing, then sets `timers[key]`; a non-dictionary on the way raises. */
  function WithTimerdict(doc: Items, key: string, timerdict: Value): (r: Result<Items>)
    ensures r.Ok? <==> TimersReachable(doc)
    ensures r.Raise? ==> r.exc == TypeError
  {
    var tm := if HasKey(doc, "taskmanager") then Get(doc, "taskmanager").value else Dict([]);
    if !tm.Dict? then Raise(TypeError)
    else
      var timers := if HasKey(tm.items, "timers") then Get(tm.items, "timers").value else Dict([]);
      if !timers.Dict? then Raise(TypeError)
      else Ok(Put(doc, "taskmanager", Dict(Put(tm.items, "timers", Dict(Put(timers.items, key, timerdict))))))
  }

  /** The document with `jobs` present (step one of the healing block). */
  function WithJobs(doc: Items): Items
  {
    if HasKey(doc, "jobs") then doc else Put(doc, "jobs", Dict([]))
  }

  /** The document with a non-dictionary `taskmanager` deleted (step two). */
  function WithoutBadTaskmanager(doc: Items): Items
  {
    if HasKey(doc, "taskmanager") && !Get(doc, "taskmanager").value.Dict? then Remove(doc, "taskmanager") else doc
  }

  /** The settings document after the healing block of `start`. */
  function Healed(doc: Items): (r: Items)
    ensures HasKey(r, "jobs")
    ensures HasKey(r, "taskmanager") && Get(r, "taskmanager").value.Dict?
  {
    var checked := WithoutBadTaskmanager(WithJobs(doc));
    if HasKey(checked, "taskmanager") then checked
    else
      var seeded := Put(checked, "taskmanager", Dict([("timers", Dict([]))]));
      WithTimerdict(seeded, DefaultBackupName, DefaultTimerdict()).value
  }

  /** `_add_timerdict` sets exactly `timers[key]`: every other timer, every other
      `taskmanager` entry and every other settings key keeps its value. */
  lemma WithTimerdictSets(doc: Items, key: string, timerdict: Value)
    requires TimersReachable(doc)
    ensures var r := WithTimerdict(doc, key, timerdict).value;
      && Get(r, "taskmanager").Some? && Get(r, "taskmanager").value.Dict?
      && Get(TaskmanagerItems(r), "timers").Some? && Get(TaskmanagerItems(r), "timers").value.Dict?
      && Get(TimerItems(r), key) == Some(timerdict)
      && (forall k :: k != key ==> Get(TimerItems(r), k) == Get(TimerItems(doc), k))
      && (forall k :: k != "timers" ==> Get(TaskmanagerItems(r), k) == Get(TaskmanagerItems(doc), k))
      && (forall k :: k != "taskmanager" ==> Get(r, k) == Get(doc, k))
  {
  }

  /** After healing, `jobs` is present; an existing job map is kept as it was. */
  lemma HealedJobs(doc: Items)
    ensures HasKey(Healed(doc), "jobs")
    ensures Get(Healed(doc), "jobs") == if HasKey(doc, "jobs") then Get(doc, "jobs") else Some(Dict([]))
  {
  }

  /** Seeding a document without `taskmanager` puts the default one in, last. */
  lemma SeedDefault(checked: Items)
    requires !HasKey(checked, "taskmanager")
    ensures var seeded := Put(checked, "taskmanager", Dict([("timers", Dict([]))]));
      WithTimerdict(seeded, DefaultBackupName, DefaultTimerdict()) == Ok(Put(checked, "taskmanager", DefaultTaskmanager()))
  {
    var empty := Dict([("timers", Dict([]))]);
    var seeded := Put(checked, "taskmanager", empty);
    assert Get(seeded, "taskmanager") == Some(empty);
    var timers := Dict([(DefaultBackupName, DefaultTimerdict())]);
    assert Put([], DefaultBackupName, DefaultTimerdict()) == timers.items;
    assert Put(empty.items, "timers", timers) == DefaultTaskmanager().items;
    PutPut(checked, "taskmanager", empty, DefaultTaskmanager());
  }

  /** The healed document in closed form: the document with `jobs` when its
      `taskmanager` is a dictionary, otherwise that document with the bad
      `taskmanager` deleted and the default one put last. */
  lemma HealedShape(doc: Items)
    ensures HasKey(doc, "taskmanager") && Get(doc, "taskmanager").value.Dict? ==> Healed(doc) == WithJobs(doc)
    ensures !(HasKey(doc, "taskmanager") && Get(doc, "taskmanager").value.Dict?) ==>
      && !HasKey(WithoutBadTaskmanager(WithJobs(doc)), "taskmanager")
      && Healed(doc) == Put(WithoutBadTaskmanager(WithJobs(doc)), "taskmanager", DefaultTaskmanager())
  {
    var withJobs := WithJobs(doc);
    assert Get(withJobs, "taskmanager") == Get(doc, "taskmanager");
    var checked := WithoutBadTaskmanager(withJobs);
    if !HasKey(checked, "taskmanager") {
      SeedDefault(checked);
    }
  }

  /** A dictionary `taskmanager` is left untouched and nothing is seeded;
      a missing or non-dictionary one becomes the default with one timer. */
  lemma HealedTaskmanager(doc: Items)
    ensures HasKey(doc, "taskmanager") && Get(doc, "taskmanager").value.Dict? ==>
      Get(Healed(doc), "taskmanager") == Get(doc, "taskmanager")
    ensures !(HasKey(doc, "taskmanager") && Get(doc, "taskmanager").value.Dict?) ==>
      Get(Healed(doc), "taskmanager") == Some(DefaultTaskmanager())
  {
    HealedShape(doc);
    if HasKey(doc, "taskmanager") && Get(doc, "taskmanager").value.Dict? {
      assert Get(WithJobs(doc), "taskmanager") == Get(doc, "taskmanager");
    } else {
      var checked := WithoutBadTaskmanager(WithJobs(doc));
      assert Healed(doc) == Put(checked, "taskmanager", DefaultTaskmanager());
    }
  }

  /** Healing touches only `jobs` and `taskmanager`. */
  lemma HealedOtherKeys(doc: Items, k: string)
    requires k != "jobs" && k != "taskmanager"
    ensures Get(Healed(doc), k) == Get(doc, k)
  {
  }

  /** Healing a healed document changes nothing. */
  lemma HealedIdempotent(doc: Items)
    ensures Healed(Healed(doc)) == Healed(doc)
  {
    HealedJobs(doc);
    HealedTaskmanager(doc);
  }

  /** Healing keeps every key unique. */
  lemma HealedUniqueKeys(doc: Items)
    requires UniqueKeys(doc)
    ensures UniqueKeys(Healed(doc))
  {
    var withJobs := WithJobs(doc);
    if !HasKey(doc, "jobs") {
      PutKeepsUnique(doc, "jobs", Dict([]));
    }
    var checked := WithoutBadTaskmanager(withJobs);
    if HasKey(withJobs, "taskmanager") && !Get(withJobs, "taskmanager").value.Dict? {
      RemoveKeepsUnique(withJobs, "taskmanager");
    }
    HealedShape(doc);
    if !HasKey(checked, "taskmanager") {
      PutKeepsUnique(checked, "taskmanager", DefaultTaskmanager());
    }
  }

  /** Key order: a missing `jobs` is appended, and a `taskmanager` that had to
      be replaced moves to the end, as deleting and re-inserting a key does. */
  lemma HealedKeyOrder(doc: Items)
    ensures !HasKey(doc, "taskmanager") || !Get(doc, "taskmanager").value.Dict? ==>
      Keys(Healed(doc)) == Keys(Remove(WithJobs(doc), "taskmanager")) + ["taskmanager"]
    ensures HasKey(doc, "taskmanager") && Get(doc, "taskmanager").value.Dict? ==>
      Keys(Healed(doc)) == Keys(WithJobs(doc))
    ensures Keys(WithJobs(doc)) == if HasKey(doc, "jobs") then Keys(doc) else Keys(doc) + ["jobs"]
  {
    if !HasKey(doc, "jobs") {
      KeysPut(doc, "jobs", Dict([]));
    }
    var withJobs := WithJobs(doc);
    var checked := WithoutBadTaskmanager(withJobs);
    if !HasKey(checked, "taskmanager") {
      if !HasKey(withJobs, "taskmanager") {
        RemoveAbsent(withJobs, "taskmanager");
      }
      HealedShape(doc);
      KeysPut(checked, "taskmanager", DefaultTaskmanager());
    }
  }
}
