/** Creating a session (src/session/create.rs): a parsed session is validated,
    checks in a fixed order stopping at the first failure, and the validated
    session is finalized by filling the session-level modifier defaults into
    every job. Reading and parsing the file are not part of this model: the
    parsed `Session` is the input. */
module SessionCreate {
  import opened Base
  import opened Errors
  import SessionModifiers
  import SessionDetails
  import SessionJob
  import opened Sessions

  const NoJobs: Error := Validation("At least on Job must be supplied")
  const WeightsExceed100: Error := Validation("Provided Job weights exceed 100")
  const StepsExceedTotal: Error := Validation("Individual Job steps exceeds Session total")

  /* ----- Validation ----- */

  /** Validates every job in order, stopping at the first failure
      (`try_for_each` over `Job::validate`). No job check can fail. */
  function ValidateJobs(jobs: seq<SessionJob.Job>): (r: Outcome<Error>)
    ensures r.Pass?
  {
    if |jobs| == 0 then
      Pass
    else
      match SessionJob.Validate(jobs[0])
      case Fail(e) => Fail(e)
      case Pass => ValidateJobs(jobs[1..])
  }

  /** A job's contribution to the aggregate: an absent value counts as 0. */
  function ValueOrZero(job: SessionJob.Job): nat
  {
    if job.value.Some? then job.value.value as nat else 0
  }

  /** The aggregate value of the jobs, folded from the left. It is unbounded
      here; the source folds in `u64`. */
  function TotalValue(jobs: seq<SessionJob.Job>): nat
  {
    if |jobs| == 0 then 0 else TotalValue(jobs[..|jobs| - 1]) + ValueOrZero(jobs[|jobs| - 1])
  }

  /** The aggregate bound each strategy places on the job values: at most 100
      in total under Random (they are weights), strictly fewer than `steps`
      under Linear and Interleave. */
  predicate WithinValueBound(s: Session)
  {
    var total := TotalValue(s.jobs);
    match s.details.shape.select
    case Random => total <= 100
    case Linear => total < s.details.shape.steps as int
    case Interleave => total < s.details.shape.steps as int
  }

  /** `check_value_constraints`: Random rejects a total of 101 or more;
      Linear and Interleave reject a total of `steps` or more. */
  function CheckValueConstraints(s: Session): (r: Outcome<Error>)
    ensures r.Pass? <==> WithinValueBound(s)
    ensures r.Fail? && s.details.shape.select.Random? ==> r.error == WeightsExceed100
    ensures r.Fail? && !s.details.shape.select.Random? ==> r.error == StepsExceedTotal
  {
    var total := TotalValue(s.jobs);
    match s.details.shape.select
    case Random =>
      if total >= 101 then Fail(WeightsExceed100) else Pass
    case Linear | Interleave =>
      if total >= s.details.shape.steps as int then Fail(StepsExceedTotal) else Pass
  }

  /** What validation demands of a session, all at once. */
  predicate Accepted(s: Session)
  {
    && IsAscii(s.details.name)
    && SessionDetails.ValidShape(s.details.shape)
    && |s.jobs| > 0
    && WithinValueBound(s)
  }

  /** `Unvalidated::validate`: details first, then the job list must be
      non-empty, then every job, then the aggregate value bound. On success the
      same session is handed back, now validated. */
  function Validate(s: Session): (r: Result<Session, Error>)
    ensures r.Success? <==> Accepted(s)
    ensures r.Success? ==> r.value == s
    ensures |s.jobs| == 0 ==> r.Failure?
  {
    match SessionDetails.Validate(s.details)
    case Fail(e) => Failure(e)
    case Pass =>
      if |s.jobs| == 0 then
        Failure(NoJobs)
      else
        match ValidateJobs(s.jobs)
        case Fail(e) => Failure(e)
        case Pass =>
          match CheckValueConstraints(s)
          case Fail(e) => Failure(e)
          case Pass => Success(s)
  }

  /* ----- The order of the checks ----- */

  /** One check: whether it passes, and the error it reports when it does not. */
  datatype Check = Check(passes: bool, error: Error)

  /** The error of the first failing check, if any. */
  function FirstFailure(checks: seq<Check>): Option<Error>
  {
    if |checks| == 0 then None
    else if !checks[0].passes then Some(checks[0].error)
    else FirstFailure(checks[1..])
  }

  /** The checks validation can fail, in the order it makes them. The
      modifier and job checks always pass and are left out of the list. */
  function ValidationChecks(s: Session): seq<Check>
  {
    var shape := s.details.shape;
    [ Check(IsAscii(s.details.name), SessionDetails.NameNotAscii),
      Check(shape.steps > 0 && shape.parallel > 0, SessionDetails.ShapeNotPositive),
      Check(shape.parallel <= shape.steps, SessionDetails.ParallelExceedsSteps),
      Check(|s.jobs| > 0, NoJobs),
      Check(WithinValueBound(s), if shape.select.Random? then WeightsExceed100 else StepsExceedTotal) ]
  }

  /** Validation reports exactly the error of the first failing check in the
      fixed order name, shape zero test, shape ordering test, non-empty jobs,
      aggregate bound; and it succeeds when none fails. */
  lemma ValidateStopsAtFirstFailure(s: Session)
    ensures Validate(s) == match FirstFailure(ValidationChecks(s))
                           case None => Success(s)
                           case Some(e) => Failure(e)
  {
    var cs := ValidationChecks(s);
    assert cs[1..][1..] == cs[2..] && cs[2..][1..] == cs[3..] && cs[3..][1..] == cs[4..];
    assert FirstFailure(cs[4..]) == if cs[4].passes then None else Some(cs[4].error) by {
      assert cs[4..][1..] == [];
    }
    assert FirstFailure(cs[3..]) == if cs[3].passes then FirstFailure(cs[4..]) else Some(cs[3].error);
    assert FirstFailure(cs[2..]) == if cs[2].passes then FirstFailure(cs[3..]) else Some(cs[2].error);
    assert FirstFailure(cs[1..]) == if cs[1].passes then FirstFailure(cs[2..]) else Some(cs[1].error);
    assert SessionDetails.ValidateShape(s.details.shape).Success? <==> SessionDetails.ValidShape(s.details.shape);
  }

  /* ----- The aggregate value ----- */

  /** The aggregate depends on the values alone (an absent one counting as 0),
      not on the commands or the modifiers. */
  lemma {:induction false} TotalValueOfValues(a: seq<SessionJob.Job>, b: seq<SessionJob.Job>)
    requires |a| == |b|
    requires forall i :: 0 <= i < |a| ==> ValueOrZero(a[i]) == ValueOrZero(b[i])
    ensures TotalValue(a) == TotalValue(b)
  {
    if |a| > 0 {
      TotalValueOfValues(a[..|a| - 1], b[..|b| - 1]);
    }
  }

  /** An absent value and an explicit 0 contribute the same to the aggregate. */
  lemma AbsentValueCountsAsZero(jobs: seq<SessionJob.Job>, i: nat)
    requires i < |jobs|
    ensures TotalValue(jobs[i := jobs[i].(value := None)]) == TotalValue(jobs[i := jobs[i].(value := Some(0))])
  {
    TotalValueOfValues(jobs[i := jobs[i].(value := None)], jobs[i := jobs[i].(value := Some(0))]);
  }

  /** No single job's value exceeds the aggregate. */
  lemma {:induction false} TotalValueBoundsEach(jobs: seq<SessionJob.Job>, i: nat)
    requires i < |jobs|
    ensures ValueOrZero(jobs[i]) <= TotalValue(jobs)
  {
    if i < |jobs| - 1 {
      TotalValueBoundsEach(jobs[..|jobs| - 1], i);
    }
  }

  /** In an accepted session every single weight is at most 100 under Random,
      and every single run count or chunk is below `steps` otherwise. */
  lemma AcceptedValuesBounded(s: Session, i: nat)
    requires Validate(s).Success?
    requires i < |s.jobs|
    ensures s.details.shape.select.Random? ==> ValueOrZero(s.jobs[i]) <= 100
    ensures !s.details.shape.select.Random? ==> ValueOrZero(s.jobs[i]) < s.details.shape.steps as int
  {
    TotalValueBoundsEach(s.jobs, i);
  }

  /* ----- Finalization ----- */

  /** Every job with the session defaults filled into its modifiers. */
  function FilledJobs(jobs: seq<SessionJob.Job>, defaults: SessionModifiers.ModifiersConfiguration): seq<SessionJob.Job>
  {
    seq(|jobs|, i requires 0 <= i < |jobs| => SessionJob.WithDefaults(jobs[i], defaults))
  }

  /** The session once `finalize` has run over it. */
  function Finalized(s: Session): Session
  {
    Session(s.details, FilledJobs(s.jobs, s.details.modifiers))
  }

  /** `Validated`: a session that passed validation; `finalize` fills the
      session defaults into its jobs in place. */
  class Validated {
    var details: SessionDetails.DetailsConfiguration
    var jobs: array<SessionJob.Job>

    /** The session this object holds. */
    function Inner(): Session
      reads this, jobs
    {
      Session(details, jobs[..])
    }

    constructor (s: Session)
      ensures Inner() == s && fresh(jobs)
    {
      details := s.details;
      jobs := new SessionJob.Job[|s.jobs|](i requires 0 <= i < |s.jobs| => s.jobs[i]);
    }

    /** `Validated::finalize`: fills the session defaults into every job in
        place, in order, and returns a copy of the session. It never fails. */
    method Finalize() returns (r: Result<Session, Error>)
      modifies jobs
      ensures Inner() == Finalized(old(Inner()))
      ensures r == Success(Inner())
    {
      var modifiers := details.modifiers;
      var i := 0;
      while i < jobs.Length
        invariant 0 <= i <= jobs.Length
        invariant forall k :: 0 <= k < i ==> jobs[k] == SessionJob.WithDefaults(old(jobs[k]), modifiers)
        invariant forall k :: i <= k < jobs.Length ==> jobs[k] == old(jobs[k])
      {
        var filled := SessionJob.FillIn(jobs[i], modifiers);
        jobs[i] := filled;
        i := i + 1;
      }
      assert jobs[..] == FilledJobs(old(jobs[..]), modifiers);
      r := Success(Session(details, jobs[..]));
    }
  }

  /** Finalization keeps the details, the number and order of the jobs, and
      each job's command and value; each job's modifiers become its own
      settings with the session defaults filled into the unset ones. An absent
      value is not an error. */
  lemma FinalizedKeepsJobs(s: Session)
    ensures Finalized(s).details == s.details
    ensures |Finalized(s).jobs| == |s.jobs|
    ensures forall i :: 0 <= i < |s.jobs| ==>
              && Finalized(s).jobs[i].cmd == s.jobs[i].cmd
              && Finalized(s).jobs[i].value == s.jobs[i].value
              && Finalized(s).jobs[i].modifiers == SessionModifiers.Inherited(s.jobs[i].modifiers, s.details.modifiers)
  {
  }

  /** Finalizing a finalized session changes nothing. */
  lemma FinalizedIdempotent(s: Session)
    ensures Finalized(Finalized(s)) == Finalized(s)
  {
    var once := Finalized(s);
    forall i | 0 <= i < |s.jobs|
      ensures Finalized(once).jobs[i] == once.jobs[i]
    {
      SessionJob.WithDefaultsIdempotent(s.jobs[i], s.details.modifiers);
    }
  }

  /** Finalizing a validated session yields a session that still validates. */
  lemma FinalizedStaysValid(s: Session)
    requires Validate(s).Success?
    ensures Validate(Finalized(s)) == Success(Finalized(s))
  {
    TotalValueOfValues(s.jobs, Finalized(s).jobs);
  }

  /* ----- The whole pipeline ----- */

  /** `from_path` once the file has been read and parsed: validate, then
      finalize. */
  function Pipeline(raw: Session): Result<Session, Error>
  {
    match Validate(raw)
    case Failure(e) => Failure(e)
    case Success(validated) => Success(Finalized(validated))
  }

  /** `from_path` without the file read: validates the parsed session and,
      when it passes, finalizes it in place. */
  method FromParsed(raw: Session) returns (r: Result<Session, Error>)
    ensures r == Pipeline(raw)
    ensures r.Success? <==> Accepted(raw)
  {
    match Validate(raw)
    case Failure(e) =>
      r := Failure(e);
    case Success(session) =>
      var validated := new Validated(session);
      r := validated.Finalize();
  }

  /** The pipeline fails exactly when validation does, with validation's
      error; when it succeeds, the resolved session holds the finalized jobs,
      a first job can always be looked up, and it validates again. */
  lemma PipelineResult(raw: Session)
    ensures Pipeline(raw).Failure? <==> Validate(raw).Failure?
    ensures Pipeline(raw).Failure? ==> Pipeline(raw).error == Validate(raw).error
    ensures Pipeline(raw).Success? ==> Pipeline(raw).value == Finalized(raw)
    ensures Pipeline(raw).Success? ==>
              GetJobs(Pipeline(raw).value, 0) == Some(SessionJob.WithDefaults(raw.jobs[0], raw.details.modifiers))
    ensures Pipeline(raw).Success? ==> Validate(Pipeline(raw).value).Success?
  {
    if Validate(raw).Success? {
      FinalizedStaysValid(raw);
    }
  }
}
