/** The session record (src/session.rs): the session details and the ordered
    list of jobs. Validation, inheritance and the lookup below all work on it. */
module Sessions {
  import opened Base
  import SessionDetails
  import SessionJob

  /** The details are kept in configuration form: validation checks them as
      such and inheritance reads their option-valued modifiers. */
  datatype Session = Session(
    details: SessionDetails.DetailsConfiguration,
    jobs: seq<SessionJob.Job>)

  /** `Session::get_jobs`: the job at `index`, or nothing when the index is past
      the end. A lookup only: the session is not changed. */
  function GetJobs(s: Session, index: nat): (r: Option<SessionJob.Job>)
    ensures r.Some? <==> index < |s.jobs|
    ensures r.Some? ==> r.value == s.jobs[index]
  {
    if index < |s.jobs| then Some(s.jobs[index]) else None
  }
}
