/** Validation of the job map in the settings document
    (`validate_operation`, `validate_jobs`). Errors are collected, never thrown;
    only a malformed value that Python itself cannot test raises. */
module Validation {
  import opened Outcomes
  import opened Json

  const MissingSource := "missing 'source'"
  const BlankName := "There is a blank job name."

  function NoOperations(name: string): string
  {
    "Job '" + name + "' has no operations."
  }

  function Digit(d: nat): char
    requires d < 10
  {
    "0123456789"[d]
  }

  /** `str(n)` for a natural number. */
  function Decimal(n: nat): string
  {
    if n < 10 then [Digit(n)] else Decimal(n / 10) + [Digit(n % 10)]
  }

  /** An operation's error as the job report shows it, with its 1-based position. */
  function OperationError(position: nat, e: string): string
  {
    "operation " + Decimal(position) + " " + e
  }

  /** The `event_template` argument: absent, or a record that may already hold an `errors` list. */
  datatype Template = NoTemplate | Template(errors: Option<seq<string>>)

  /** The list the validator appends to: the template's own, or a new empty one. */
  function InitialErrors(t: Template): seq<string>
  {
    if t.Template? && t.errors.Some? then t.errors.value else []
  }

  /** `validate_operation`: the errors of one operation (an empty list stands for `{}`). */
  function ValidateOperation(op: Value): (r: Result<seq<string>>)
    ensures r.Raise? <==> !(op.Dict? || op.List? || op.Str?)
    ensures r.Raise? ==> r.exc == TypeError
    ensures r.Ok? ==> r.value == [] || r.value == [MissingSource]
    ensures op.Dict? ==> r == Ok(if HasKey(op.items, "source") then [] else [MissingSource])
  {
    var hasSource :- Contains(op, "source");
    Ok(if hasSource then [] else [MissingSource])
  }

  function Numbered(position: nat, es: seq<string>): seq<string>
  {
    seq(|es|, i requires 0 <= i < |es| => OperationError(position, es[i]))
  }

  /** The errors of a job's operations, in operation order. */
  function OperationErrors(ops: seq<Value>): Result<seq<string>>
  {
    if ops == [] then Ok([])
    else
      var earlier :- OperationErrors(ops[..|ops| - 1]);
      var own :- ValidateOperation(ops[|ops| - 1]);
      Ok(earlier + Numbered(|ops|, own))
  }

  function BlankNameErrors(name: string): seq<string>
  {
    if name == "" then [BlankName] else []
  }

  /** The errors of one job: its blank name, then its missing `operations`
      (which skips the operation checks) or its operations' errors. */
  function JobErrors(name: string, job: Value): Result<seq<string>>
  {
    var blank := BlankNameErrors(name);
    var hasOperations :- Contains(job, "operations");
    if !hasOperations then Ok(blank + [NoOperations(name)])
    else
      var ops :- Subscript(job, "operations");
      var elems :- Iterate(ops);
      var es :- OperationErrors(elems);
      Ok(blank + es)
  }

  /** The errors of all jobs, in job order. */
  function JobsErrors(jobs: Items): Result<seq<string>>
  {
    if jobs == [] then Ok([])
    else
      var earlier :- JobsErrors(jobs[..|jobs| - 1]);
      var own :- JobErrors(jobs[|jobs| - 1].0, jobs[|jobs| - 1].1);
      Ok(earlier + own)
  }

  /** What `validate_jobs` returns as `results['errors']` for the document `doc`. */
  function ValidationErrors(doc: Items, template: Template): (r: Result<seq<string>>)
    ensures r.Ok? ==> InitialErrors(template) <= r.value
    ensures !HasKey(doc, "jobs") || !Truthy(Get(doc, "jobs").value) ==> r == Ok(InitialErrors(template))
  {
    var start := InitialErrors(template);
    var jobs := Get(doc, "jobs");
    if jobs.None? || !Truthy(jobs.value) then Ok(start)
    else if !jobs.value.Dict? then Raise(AttributeError)
    else
      var es :- JobsErrors(jobs.value.items);
      Ok(start + es)
  }

  /** `validate_jobs`, which reads the job map from the settings document `doc`. */
  method ValidateJobs(doc: Items, template: Template) returns (r: Result<seq<string>>)
    ensures r == ValidationErrors(doc, template)
  {
    var errors := InitialErrors(template);
    var found := Get(doc, "jobs");
    if found.None? || !Truthy(found.value) {
      return Ok(errors);
    }
    if !found.value.Dict? {
      return Raise(AttributeError);
    }
    r := AppendAllJobErrors(found.value.items, errors);
  }

  /** The loop over `jobs.items()` in `validate_jobs`. */
  method AppendAllJobErrors(jobs: Items, errors: seq<string>) returns (r: Result<seq<string>>)
    ensures JobsErrors(jobs).Raise? ==> r == Raise(JobsErrors(jobs).exc)
    ensures JobsErrors(jobs).Ok? ==> r == Ok(errors + JobsErrors(jobs).value)
  {
    var acc := errors;
    var j := 0;
    while j < |jobs|
      invariant 0 <= j <= |jobs|
      invariant JobsErrors(jobs[..j]).Ok?
      invariant acc == errors + JobsErrors(jobs[..j]).value
    {
      var next := AppendJobErrors(jobs[j].0, jobs[j].1, acc);
      JobsErrorsSnoc(jobs, j);
      if next.Raise? {
        JobsRaisePersists(jobs, j + 1);
        return next;
      }
      assert next.value == errors + JobsErrors(jobs[..j + 1]).value;
      acc := next.value;
      j := j + 1;
    }
    assert jobs[..j] == jobs;
    r := Ok(acc);
  }

  /** The body of the loop over jobs in `validate_jobs`: appends one job's errors. */
  method AppendJobErrors(name: string, job: Value, errors: seq<string>) returns (r: Result<seq<string>>)
    ensures JobErrors(name, job).Raise? ==> r == Raise(JobErrors(name, job).exc)
    ensures JobErrors(name, job).Ok? ==> r == Ok(errors + JobErrors(name, job).value)
  {
    var acc := errors;
    if name == "" {
      acc := acc + [BlankName];
    }
    var hasOperations := Contains(job, "operations");
    if hasOperations.Raise? {
      return Raise(hasOperations.exc);
    }
    if !hasOperations.value {
      assert acc + [NoOperations(name)] == errors + (BlankNameErrors(name) + [NoOperations(name)]);
      return Ok(acc + [NoOperations(name)]);
    }
    var ops := Subscript(job, "operations");
    if ops.Raise? {
      return Raise(ops.exc);
    }
    var elems := Iterate(ops.value);
    if elems.Raise? {
      return Raise(elems.exc);
    }
    r := AppendOperationErrors(elems.value, acc);
    if r.Ok? {
      var own := OperationErrors(elems.value).value;
      assert r.value == errors + (BlankNameErrors(name) + own);
    }
  }

  /** The loop over `enumerate(job['operations'])` in `validate_jobs`. */
  method AppendOperationErrors(ops: seq<Value>, errors: seq<string>) returns (r: Result<seq<string>>)
    ensures OperationErrors(ops).Raise? ==> r == Raise(OperationErrors(ops).exc)
    ensures OperationErrors(ops).Ok? ==> r == Ok(errors + OperationErrors(ops).value)
  {
    var acc := errors;
    var i := 0;
    while i < |ops|
      invariant 0 <= i <= |ops|
      invariant OperationErrors(ops[..i]).Ok?
      invariant acc == errors + OperationErrors(ops[..i]).value
    {
      assert ops[..i + 1][..i] == ops[..i];
      var opResult := ValidateOperation(ops[i]);
      if opResult.Raise? {
        OperationsRaisePersists(ops, i + 1);
        return Raise(opResult.exc);
      }
      var opErrors := opResult.value;
      ghost var before := acc;
      var k := 0;
      while k < |opErrors|
        invariant 0 <= k <= |opErrors|
        invariant acc == before + Numbered(i + 1, opErrors[..k])
      {
        assert Numbered(i + 1, opErrors[..k + 1]) == Numbered(i + 1, opErrors[..k]) + [OperationError(i + 1, opErrors[k])];
        acc := acc + [OperationError(i + 1, opErrors[k])];
        k := k + 1;
      }
      assert opErrors[..k] == opErrors;
      i := i + 1;
    }
    assert ops[..i] == ops;
    r := Ok(acc);
  }

  /** Proof step for the job loop: one more job appends its errors or raises. */
  lemma JobsErrorsSnoc(jobs: Items, j: nat)
    requires j < |jobs| && JobsErrors(jobs[..j]).Ok?
    ensures JobErrors(jobs[j].0, jobs[j].1).Raise? ==>
              JobsErrors(jobs[..j + 1]) == Raise(JobErrors(jobs[j].0, jobs[j].1).exc)
    ensures JobErrors(jobs[j].0, jobs[j].1).Ok? ==>
              JobsErrors(jobs[..j + 1]) == Ok(JobsErrors(jobs[..j]).value + JobErrors(jobs[j].0, jobs[j].1).value)
  {
    assert jobs[..j + 1][..j] == jobs[..j];
  }

  /** Once an operation raises, the whole list raises that exception. */
  lemma {:induction false} OperationsRaisePersists(ops: seq<Value>, n: nat)
    requires n <= |ops| && OperationErrors(ops[..n]).Raise?
    ensures OperationErrors(ops) == OperationErrors(ops[..n])
    decreases |ops| - n
  {
    if n < |ops| {
      assert ops[..n + 1][..n] == ops[..n];
      OperationsRaisePersists(ops, n + 1);
    } else {
      assert ops[..n] == ops;
    }
  }

  /** Once a job raises, the whole validation raises that exception. */
  lemma {:induction false} JobsRaisePersists(jobs: Items, n: nat)
    requires n <= |jobs| && JobsErrors(jobs[..n]).Raise?
    ensures JobsErrors(jobs) == JobsErrors(jobs[..n])
    decreases |jobs| - n
  {
    if n < |jobs| {
      assert jobs[..n + 1][..n] == jobs[..n];
      JobsRaisePersists(jobs, n + 1);
    } else {
      assert jobs[..n] == jobs;
    }
  }

  /** A job as the settings document describes it: a dictionary whose
      `operations`, when present, is a list of dictionaries. */
  predicate WellFormedJob(job: Value)
  {
    && job.Dict?
    && (HasKey(job.items, "operations") ==>
          var ops := Get(job.items, "operations").value;
          ops.List? && forall i :: 0 <= i < |ops.elems| ==> ops.elems[i].Dict?)
  }

  /** An operation as the settings document describes it: a dictionary without `source`. */
  predicate LacksSource(op: Value)
  {
    op.Dict? && !HasKey(op.items, "source")
  }

  /** Reference list, walking the operations front to back: one
      "operation <n> missing 'source'" per operation that lacks `source`,
      numbering the first operation `first + 1`. */
  function MissingFrom(ops: seq<Value>, first: nat): seq<string>
    decreases |ops|
  {
    if ops == [] then []
    else (if LacksSource(ops[0]) then [OperationError(first + 1, MissingSource)] else [])
         + MissingFrom(ops[1..], first + 1)
  }

  /** The forward walk over `a + b` is the walk over `a`, then over `b`
      numbered on from where `a` stopped. */
  lemma {:induction false} MissingFromAppend(a: seq<Value>, b: seq<Value>, first: nat)
    ensures MissingFrom(a + b, first) == MissingFrom(a, first) + MissingFrom(b, first + |a|)
    decreases |a|
  {
    if a == [] {
      assert a + b == b;
    } else {
      MissingFromAppend(a[1..], b, first + 1);
      assert (a + b)[0] == a[0] && (a + b)[1..] == a[1..] + b;
      var head := if LacksSource(a[0]) then [OperationError(first + 1, MissingSource)] else [];
      assert head + (MissingFrom(a[1..], first + 1) + MissingFrom(b, first + |a|))
          == (head + MissingFrom(a[1..], first + 1)) + MissingFrom(b, first + |a|);
    }
  }

  /** The operations of a job, all dictionaries, are reported exactly as the
      forward walk does: one error per operation without `source`, in operation
      order, numbered from 1, and nothing else. */
  lemma {:induction false} OperationErrorsExact(ops: seq<Value>)
    requires forall i :: 0 <= i < |ops| ==> ops[i].Dict?
    ensures OperationErrors(ops) == Ok(MissingFrom(ops, 0))
  {
    if ops != [] {
      var n := |ops|;
      var init := ops[..n - 1];
      var last := ops[n - 1];
      OperationErrorsExact(init);
      MissingFromAppend(init, [last], 0);
      assert init + [last] == ops;
      var mine := if LacksSource(last) then [OperationError(n, MissingSource)] else [];
      assert MissingFrom([last], n - 1) == mine + MissingFrom([], n);
      var own := if HasKey(last.items, "source") then [] else [MissingSource];
      assert ValidateOperation(last) == Ok(own);
      assert Numbered(n, own) == mine;
      assert mine + MissingFrom([], n) == mine;
      assert MissingFrom(ops, 0) == MissingFrom(init, 0) + mine;
      assert OperationErrors(ops) == Ok(OperationErrors(init).value + Numbered(n, own));
    }
  }

  /** An error is reported exactly when some operation lacks `source`, and it
      names that operation's 1-based position. */
  lemma {:induction false} OperationErrorsOfDicts(ops: seq<Value>)
    requires forall i :: 0 <= i < |ops| ==> ops[i].Dict?
    ensures OperationErrors(ops).Ok?
    ensures forall e :: e in OperationErrors(ops).value <==>
              exists i :: 0 <= i < |ops| && !HasKey(ops[i].items, "source") && e == OperationError(i + 1, MissingSource)
    ensures |OperationErrors(ops).value| <= |ops|
  {
    if ops != [] {
      var n := |ops|;
      var init := ops[..n - 1];
      OperationErrorsOfDicts(init);
      var earlier := OperationErrors(init).value;
      var own := if HasKey(ops[n - 1].items, "source") then [] else [MissingSource];
      assert ValidateOperation(ops[n - 1]) == Ok(own);
      assert OperationErrors(ops).value == earlier + Numbered(n, own);
      assert Numbered(n, own) == if LacksSource(ops[n - 1]) then [OperationError(n, MissingSource)] else [];
      forall e
        ensures e in OperationErrors(ops).value <==>
                exists i :: 0 <= i < n && !HasKey(ops[i].items, "source") && e == OperationError(i + 1, MissingSource)
      {
        if e in earlier {
          var i :| 0 <= i < n - 1 && !HasKey(init[i].items, "source") && e == OperationError(i + 1, MissingSource);
          assert ops[i] == init[i];
        } else if e in Numbered(n, own) {
          assert e == OperationError(n, MissingSource) && !HasKey(ops[n - 1].items, "source");
        }
        if exists i :: 0 <= i < n && !HasKey(ops[i].items, "source") && e == OperationError(i + 1, MissingSource) {
          var i :| 0 <= i < n && !HasKey(ops[i].items, "source") && e == OperationError(i + 1, MissingSource);
          if i < n - 1 {
            assert init[i] == ops[i];
          } else {
            assert Numbered(n, own) == [e];
          }
        }
      }
    }
  }

  /** A well-formed job never raises: without `operations` it reports exactly
      that (after a blank name), otherwise its blank name and its operations' errors. */
  lemma WellFormedJobErrors(name: string, job: Value)
    requires WellFormedJob(job)
    ensures JobErrors(name, job).Ok?
    ensures !HasKey(job.items, "operations") ==>
              JobErrors(name, job).value == BlankNameErrors(name) + [NoOperations(name)]
    ensures HasKey(job.items, "operations") ==>
              JobErrors(name, job).value == BlankNameErrors(name) + OperationErrors(Get(job.items, "operations").value.elems).value
  {
    if HasKey(job.items, "operations") {
      OperationErrorsOfDicts(Get(job.items, "operations").value.elems);
    }
  }

  /** Errors come in job order: validating `a + b` reports `a`'s errors, then `b`'s. */
  lemma {:induction false} JobsErrorsAppend(a: Items, b: Items)
    ensures JobsErrors(a + b) == (var x :- JobsErrors(a); var y :- JobsErrors(b); Ok(x + y))
    decreases |b|
  {
    if b == [] {
      assert a + b == a;
      if JobsErrors(a).Ok? {
        assert JobsErrors(a).value + [] == JobsErrors(a).value;
      }
    } else {
      var init := b[..|b| - 1];
      JobsErrorsAppend(a, init);
      assert (a + b)[..|a + b| - 1] == a + init;
      assert (a + b)[|a + b| - 1] == b[|b| - 1];
      var last := b[|b| - 1];
      if JobsErrors(a).Ok? && JobsErrors(init).Ok? && JobErrors(last.0, last.1).Ok? {
        var x, y, z := JobsErrors(a).value, JobsErrors(init).value, JobErrors(last.0, last.1).value;
        assert x + y + z == x + (y + z);
      }
    }
  }

  /** A document whose jobs are all well formed validates without raising. */
  lemma {:induction false} WellFormedJobsNeverRaise(jobs: Items)
    requires forall i :: 0 <= i < |jobs| ==> WellFormedJob(jobs[i].1)
    ensures JobsErrors(jobs).Ok?
    decreases |jobs|
  {
    if jobs != [] {
      WellFormedJobsNeverRaise(jobs[..|jobs| - 1]);
      WellFormedJobErrors(jobs[|jobs| - 1].0, jobs[|jobs| - 1].1);
    }
  }

  /** A job whose only operation lacks `source` yields exactly one error, naming operation 1. */
  lemma MissingSourceScenario(template: Template)
    ensures ValidationErrors([("jobs", Dict([("default_backup", Dict([("operations", List([Dict([])]))]))]))], template)
            == Ok(InitialErrors(template) + ["operation 1 missing 'source'"])
  {
    var ops := [Dict([])];
    var job := Dict([("operations", List(ops))]);
    var jobs: Items := [("default_backup", job)];
    var expected := ["operation 1 missing 'source'"];
    assert ops[..0] == [];
    assert ValidateOperation(ops[0]) == Ok([MissingSource]);
    assert Decimal(1) == "1";
    assert Numbered(1, [MissingSource])[0] == expected[0];
    assert Numbered(1, [MissingSource]) == expected;
    assert [] + expected == expected;
    assert OperationErrors(ops) == Ok(expected);
    assert Contains(job, "operations") == Ok(true);
    assert Subscript(job, "operations") == Ok(List(ops));
    assert Iterate(List(ops)) == Ok(ops);
    assert BlankNameErrors("default_backup") == [];
    assert JobErrors("default_backup", job) == Ok(expected);
    assert jobs[..0] == [];
    assert JobsErrors(jobs) == Ok(expected);
  }
}
