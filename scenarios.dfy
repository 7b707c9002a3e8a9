/** Concrete sessions at the edges of the validation rules: the exact
    comparators of the aggregate bound, the precedence of the shape checks,
    an absent value, and inheritance of a session-level stdout. */
module SessionScenarios {
  import opened Base
  import opened SessionModifiers
  import opened SessionDetails
  import opened SessionJob
  import opened Sessions
  import SessionCreate

  /** A job that runs `cmd` with the given value and no modifiers of its own. */
  function PlainJob(value: Option<u64>): Job
  {
    Job("true", value, DefaultModifiers)
  }

  /** A session named "bench" with no session-level modifiers. */
  function Bench(select: Select, steps: u64, parallel: u64, jobs: seq<Job>): Session
  {
    Session(DetailsConfiguration("bench", false, DefaultModifiers, Shape(select, steps, parallel)), jobs)
  }

  /** Under Random, weights totalling exactly 100 pass and 101 fail. */
  lemma RandomWeightBoundary()
    ensures SessionCreate.Validate(Bench(Random, 10, 2, [PlainJob(Some(60)), PlainJob(Some(40))])).Success?
    ensures SessionCreate.Validate(Bench(Random, 10, 2, [PlainJob(Some(60)), PlainJob(Some(41))])) == Failure(SessionCreate.WeightsExceed100)
  {
    var ok := Bench(Random, 10, 2, [PlainJob(Some(60)), PlainJob(Some(40))]);
    var over := Bench(Random, 10, 2, [PlainJob(Some(60)), PlainJob(Some(41))]);
    assert SessionCreate.TotalValue(ok.jobs) == 100 by {
      assert ok.jobs[..1] == [PlainJob(Some(60))];
    }
    assert SessionCreate.TotalValue(over.jobs) == 101 by {
      assert over.jobs[..1] == [PlainJob(Some(60))];
    }
  }

  /** Under Linear a total equal to `steps` is rejected; one fewer passes.
      Four plus eight runs against ten steps is rejected too. */
  lemma LinearStepsBoundary()
    ensures SessionCreate.Validate(Bench(Linear, 10, 1, [PlainJob(Some(4)), PlainJob(Some(6))])) == Failure(SessionCreate.StepsExceedTotal)
    ensures SessionCreate.Validate(Bench(Linear, 10, 1, [PlainJob(Some(4)), PlainJob(Some(5))])).Success?
    ensures SessionCreate.Validate(Bench(Linear, 10, 1, [PlainJob(Some(4)), PlainJob(Some(8))])) == Failure(SessionCreate.StepsExceedTotal)
  {
    var atLimit := Bench(Linear, 10, 1, [PlainJob(Some(4)), PlainJob(Some(6))]);
    var below := Bench(Linear, 10, 1, [PlainJob(Some(4)), PlainJob(Some(5))]);
    var over := Bench(Linear, 10, 1, [PlainJob(Some(4)), PlainJob(Some(8))]);
    assert atLimit.jobs[..1] == below.jobs[..1] == over.jobs[..1] == [PlainJob(Some(4))];
    assert SessionCreate.TotalValue(below.jobs) == 9;
    assert IsAscii("bench");
  }

  /** The same comparator holds under Interleave. */
  lemma InterleaveStepsBoundary()
    ensures SessionCreate.Validate(Bench(Interleave, 6, 2, [PlainJob(Some(6))])) == Failure(SessionCreate.StepsExceedTotal)
    ensures SessionCreate.Validate(Bench(Interleave, 6, 2, [PlainJob(Some(2)), PlainJob(Some(1))])).Success?
  {
    var two := Bench(Interleave, 6, 2, [PlainJob(Some(2)), PlainJob(Some(1))]);
    assert two.jobs[..1] == [PlainJob(Some(2))];
  }

  /** With `steps = 0` and `parallel = 5` both shape rules fail; the zero test
      is reported. `parallel` above `steps` gives the ordering error. */
  lemma ZeroTestComesFirst()
    ensures SessionCreate.Validate(Bench(Linear, 0, 5, [PlainJob(None)])) == Failure(ShapeNotPositive)
    ensures SessionCreate.Validate(Bench(Linear, 3, 5, [PlainJob(None)])) == Failure(ParallelExceedsSteps)
  {
    assert IsAscii("bench");
  }

  /** A session without jobs is rejected once its details pass. */
  lemma NoJobsRejected()
    ensures SessionCreate.Validate(Bench(Random, 1, 1, [])) == Failure(SessionCreate.NoJobs)
  {
    assert IsAscii("bench");
  }

  /** A non-ASCII name is reported before a broken shape. */
  lemma NameCheckedFirst()
    ensures SessionCreate.Validate(Session(DetailsConfiguration("bé", false, DefaultModifiers, Shape(Linear, 0, 0)), [])) ==
            Failure(NameNotAscii)
  {
    assert !IsAscii("bé") by {
      assert "bé"[1] as int == 0xe9;
    }
  }

  /** A job with no value passes validation and finalization; no
      missing-value error exists. */
  lemma AbsentValueAccepted()
    ensures SessionCreate.Pipeline(Bench(Random, 10, 2, [PlainJob(None)])).Success?
  {
    assert SessionCreate.TotalValue([PlainJob(None)]) == 0;
  }

  /** A session-level stdout reaches a job that sets none, and a job-level
      stdout is kept. */
  lemma StdoutInherited()
    ensures var defaults := ModifiersConfiguration(None, Some(File("/tmp/out")), None);
            && WithDefaults(PlainJob(Some(1)), defaults).modifiers.stdout == Some(File("/tmp/out"))
            && WithDefaults(Job("true", Some(1), ModifiersConfiguration(None, Some(File("/tmp/x")), None)), defaults)
                 .modifiers.stdout == Some(File("/tmp/x"))
  {
  }
}
