/** The backend's registry of running threads (`BackupNow.threads`), seen as a
    map from a name to a thread handle. Whether a handle is alive is decided
    by the threads themselves; callers pass it in as the set of live handles. */
module Registry {
  import opened Outcomes
  import opened Json

  /** What a thread was created to run. */
  datatype Target = RunJob(jobName: string, job: Value) | RunTimer(jobName: string)

  /** A `threading.Thread` handle. */
  class Thread {
    const target: Target

    constructor (target: Target)
      ensures this.target == target
    {
      this.target := target;
    }
  }

  type Threads = map<string, Thread>

  /** The result record `start_job` returns: `{}` or `{'error': ..., 'status': ...}`. */
  datatype Event = Event(error: Option<string>, status: Option<string>)

  const NoEvent := Event(None, None)

  const CallbackMissing := "Set the progress_cb to a method."

  function AlreadyRunning(name: string): Event
  {
    Event(Some(name + " is already running."), Some("done"))
  }

  /** `name` is registered and its thread is alive. */
  predicate IsRunning(threads: Threads, alive: set<Thread>, name: string)
  {
    name in threads && threads[name] in alive
  }

  /** The orphan check of `start_job` and `run_timer`: a registered thread
      that is no longer alive is deleted. */
  function DiscardOrphan(threads: Threads, alive: set<Thread>, name: string): Threads
  {
    if name in threads && threads[name] !in alive then threads - {name} else threads
  }

  /** After the orphan check, `name` is registered exactly when it is running,
      and no other entry has changed. */
  lemma DiscardOrphanKeepsLive(threads: Threads, alive: set<Thread>, name: string)
    ensures name in DiscardOrphan(threads, alive, name) <==> IsRunning(threads, alive, name)
    ensures forall k :: k != name ==> (k in DiscardOrphan(threads, alive, name) <==> k in threads)
    ensures forall k :: k in DiscardOrphan(threads, alive, name) ==> DiscardOrphan(threads, alive, name)[k] == threads[k]
  {
  }

  /** The event `start_job` returns (or the exception it raises). */
  function StartJobEvent(threads: Threads, alive: set<Thread>, name: string, hasProgressCallback: bool): Result<Event>
  {
    if !hasProgressCallback then Raise(ValueError(CallbackMissing))
    else if IsRunning(threads, alive, name) then Ok(AlreadyRunning(name))
    else Ok(NoEvent)
  }

  /** The registry after `start_job`, where `spawned` is the thread it creates. */
  function StartJobRegistry(threads: Threads, alive: set<Thread>, name: string, hasProgressCallback: bool,
                            spawned: Thread): Threads
  {
    if StartJobEvent(threads, alive, name, hasProgressCallback) == Ok(NoEvent) then threads[name := spawned]
    else threads
  }

  /** `start_job` never touches another name; with a callback, the name is
      afterwards registered either to the thread already running it or to the new one. */
  lemma StartJobEffect(threads: Threads, alive: set<Thread>, name: string, hasProgressCallback: bool, spawned: Thread)
    ensures var after := StartJobRegistry(threads, alive, name, hasProgressCallback, spawned);
      && (forall k :: k != name ==> (k in after <==> k in threads))
      && (forall k :: k != name && k in after ==> after[k] == threads[k])
      && (hasProgressCallback ==> name in after)
      && (StartJobEvent(threads, alive, name, hasProgressCallback) == Ok(AlreadyRunning(name)) ==>
            after == threads && IsRunning(threads, alive, name))
      && (StartJobEvent(threads, alive, name, hasProgressCallback) == Ok(NoEvent) ==> after[name] == spawned)
  {
  }

  /** Two back-to-back starts of one name, the first thread still alive at the
      second: one thread is spawned and the second call reports "already running". */
  lemma StartJobTwice(threads: Threads, alive: set<Thread>, name: string, first: Thread, second: Thread,
                      aliveLater: set<Thread>)
    requires !IsRunning(threads, alive, name)
    requires first in aliveLater
    ensures var once := StartJobRegistry(threads, alive, name, true, first);
      && StartJobEvent(threads, alive, name, true) == Ok(NoEvent)
      && StartJobEvent(once, aliveLater, name, true) == Ok(AlreadyRunning(name))
      && StartJobRegistry(once, aliveLater, name, true, second) == once
  {
  }

  /** One polling pass of `stop_sync`: the entries whose threads are dead go. */
  function Sweep(threads: Threads, alive: set<Thread>): Threads
  {
    map k | k in threads && threads[k] in alive :: threads[k]
  }

  const InitialWait := 1
  const WaitIncrement := 2
  const MaxWait := 20

  /** The `n`-th wait of `stop_sync`: starts at 1, grows by 2, capped at 20. */
  function Backoff(n: nat): int
  {
    if n == 0 then InitialWait
    else if Backoff(n - 1) + WaitIncrement > MaxWait then MaxWait
    else Backoff(n - 1) + WaitIncrement
  }

  /** The waits of `stop_sync` are 1, 3, 5, ..., 19, then 20 for ever. */
  lemma {:induction false} BackoffSchedule(n: nat)
    ensures Backoff(n) == if 2 * n + 1 > MaxWait then MaxWait else 2 * n + 1
    ensures InitialWait <= Backoff(n) <= MaxWait
  {
    if n > 0 {
      BackoffSchedule(n - 1);
    }
  }

  /** The waits never shrink. */
  lemma BackoffMonotone(i: nat, j: nat)
    requires i <= j
    ensures Backoff(i) <= Backoff(j)
  {
    BackoffSchedule(i);
    BackoffSchedule(j);
  }

  /** The first `n` waits, in order. */
  function Waits(n: nat): seq<int>
  {
    seq(n, i requires 0 <= i < n => Backoff(i))
  }

  /** The polling loop of `stop_sync` run against one liveness snapshot per
      pass: the registry it leaves and how many times it slept. It stops when
      the registry is empty or the snapshots run out. */
  function Drain(threads: Threads, polls: seq<set<Thread>>): (Threads, nat)
    decreases |polls|
  {
    if threads == map[] || polls == [] then (threads, 0)
    else
      var swept := Sweep(threads, polls[0]);
      if swept == map[] then (swept, 0)
      else (Drain(swept, polls[1..]).0, Drain(swept, polls[1..]).1 + 1)
  }

  /** Polling only removes entries; it sleeps once per pass that leaves some. */
  lemma {:induction false} DrainKeepsEntries(threads: Threads, polls: seq<set<Thread>>)
    ensures forall k :: k in Drain(threads, polls).0 ==> k in threads && Drain(threads, polls).0[k] == threads[k]
    ensures Drain(threads, polls).1 <= |polls|
    ensures Drain(threads, polls).0 != map[] ==> Drain(threads, polls).1 == |polls|
    decreases |polls|
  {
    if threads != map[] && polls != [] {
      DrainKeepsEntries(Sweep(threads, polls[0]), polls[1..]);
    }
  }

  /** An entry whose thread is dead at any pass is gone at the end. */
  lemma {:induction false} DrainRemovesDead(threads: Threads, polls: seq<set<Thread>>, j: nat, k: string)
    requires j < |polls| && k in threads && threads[k] !in polls[j]
    ensures k !in Drain(threads, polls).0
    decreases |polls|
  {
    var swept := Sweep(threads, polls[0]);
    if swept != map[] {
      if j > 0 && k in swept {
        assert polls[1..][j - 1] == polls[j];
        DrainRemovesDead(swept, polls[1..], j - 1, k);
      } else {
        DrainKeepsEntries(swept, polls[1..]);
      }
    }
  }

  /** Every entry left at the end was alive at every pass. */
  lemma {:induction false} DrainSurvivorsAlive(threads: Threads, polls: seq<set<Thread>>, j: nat, k: string)
    requires j < |polls| && k in Drain(threads, polls).0
    ensures Drain(threads, polls).0[k] in polls[j]
  {
    DrainKeepsEntries(threads, polls);
    if threads[k] !in polls[j] {
      DrainRemovesDead(threads, polls, j, k);
    }
  }

  /** Once a pass finds every registered thread finished, polling ends with an empty registry. */
  lemma DrainEmptiesWhenAllFinish(threads: Threads, polls: seq<set<Thread>>, j: nat)
    requires j < |polls|
    requires forall k :: k in threads ==> threads[k] !in polls[j]
    ensures Drain(threads, polls).0 == map[]
  {
    forall k | k in Drain(threads, polls).0
      ensures false
    {
      DrainKeepsEntries(threads, polls);
      DrainRemovesDead(threads, polls, j, k);
    }
  }
}
