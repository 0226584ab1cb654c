/** The `--backup-name` filter that `main` applies to the ready timers. The
    timers are opaque here (`T`); the mapping is a sequence of (name, timer)
    pairs in dictionary order. */
module Cli {
  import opened Outcomes

  /** The pairs whose name is `name`, in their original order. */
  function Named<T>(timers: seq<(string, T)>, name: string): seq<(string, T)>
  {
    if timers == [] then []
    else
      var last := timers[|timers| - 1];
      Named(timers[..|timers| - 1], name) + if last.0 == name then [last] else []
  }

  /** The names are distinct, as the keys of a dictionary are. */
  predicate DistinctNames<T>(timers: seq<(string, T)>)
  {
    forall i, j :: 0 <= i < j < |timers| ==> timers[i].0 != timers[j].0
  }

  /** The filter of `main`: with a non-empty `--backup-name`, only the ready
      timers of that name remain; without one, all of them do. */
  method FilterReady<T>(timers: seq<(string, T)>, backupName: Option<string>) returns (r: seq<(string, T)>)
    ensures r == if backupName.Some? && backupName.value != "" then Named(timers, backupName.value) else timers
  {
    r := timers;
    if timers != [] {
      var matching := [];
      var i := 0;
      while i < |timers|
        invariant 0 <= i <= |timers|
        invariant matching == if backupName.Some? && backupName.value != "" then Named(timers[..i], backupName.value) else []
      {
        assert timers[..i + 1][..i] == timers[..i];
        if backupName.Some? && backupName.value != "" {
          if backupName.value == timers[i].0 {
            matching := matching + [timers[i]];
          }
        }
        i := i + 1;
      }
      assert timers[..i] == timers;
      if backupName.Some? && backupName.value != "" {
        r := matching;
      }
    }
  }

  /** A pair is kept exactly when it is one of the timers and has the name asked for. */
  lemma {:induction false} NamedMembers<T>(timers: seq<(string, T)>, name: string, p: (string, T))
    ensures p in Named(timers, name) <==> p in timers && p.0 == name
  {
    if timers != [] {
      var init := timers[..|timers| - 1];
      NamedMembers(init, name, p);
      assert timers == init + [timers[|timers| - 1]];
    }
  }

  /** Timer names are dictionary keys, so at most one timer survives the filter. */
  lemma {:induction false} NamedAtMostOne<T>(timers: seq<(string, T)>, name: string)
    requires DistinctNames(timers)
    ensures |Named(timers, name)| <= 1
  {
    if timers != [] {
      var init := timers[..|timers| - 1];
      NamedAtMostOne(init, name);
      if timers[|timers| - 1].0 == name && |Named(init, name)| == 1 {
        NamedMembers(init, name, Named(init, name)[0]);
      }
    }
  }
}
