/** A job template of a session (src/session/job.rs): the command, its
    strategy-dependent `value` (a weight under Random, a run count under Linear,
    a chunk size under Interleave), and its own modifiers in configuration form. */
module SessionJob {
  import opened Base
  import opened Errors
  import SessionModifiers

  datatype Job = Job(
    cmd: string,
    value: Option<u64>,
    modifiers: SessionModifiers.ModifiersConfiguration)

  /** The job once the session defaults are filled into its modifiers. */
  function WithDefaults(job: Job, defaults: SessionModifiers.ModifiersConfiguration): Job
  {
    job.(modifiers := SessionModifiers.Inherited(job.modifiers, defaults))
  }

  /** `Job::fill_in`: fills the defaults into the job's modifiers; the command
      and the value are left as they are. `&mut self` is modelled by returning
      the updated job. */
  method FillIn(job: Job, defaults: SessionModifiers.ModifiersConfiguration) returns (filled: Job)
    ensures filled.cmd == job.cmd && filled.value == job.value
    ensures filled.modifiers == SessionModifiers.Inherited(job.modifiers, defaults)
    ensures filled == WithDefaults(job, defaults)
  {
    filled := job;
    var modifiers := SessionModifiers.FillIn(filled.modifiers, defaults);
    filled := filled.(modifiers := modifiers);
  }

  /** Filling in a job twice from the same defaults is the same as once, and
      filling in from the default modifiers leaves it unchanged. */
  lemma WithDefaultsIdempotent(job: Job, defaults: SessionModifiers.ModifiersConfiguration)
    ensures WithDefaults(WithDefaults(job, defaults), defaults) == WithDefaults(job, defaults)
    ensures WithDefaults(job, SessionModifiers.DefaultModifiers) == job
  {
    SessionModifiers.InheritedIdempotent(job.modifiers, defaults);
    SessionModifiers.InheritedFromDefault(job.modifiers);
  }

  /** A job-level setting survives filling in, whatever the defaults say. */
  lemma WithDefaultsKeepsJobSettings(job: Job, defaults: SessionModifiers.ModifiersConfiguration)
    ensures job.modifiers.wrapper.Some? ==> WithDefaults(job, defaults).modifiers.wrapper == job.modifiers.wrapper
    ensures job.modifiers.stdout.Some? ==> WithDefaults(job, defaults).modifiers.stdout == job.modifiers.stdout
    ensures job.modifiers.stderr.Some? ==> WithDefaults(job, defaults).modifiers.stderr == job.modifiers.stderr
  {
    SessionModifiers.InheritedKeepsOwnSettings(job.modifiers, defaults);
  }

  /** `Job::validate`: validates the job's modifiers, which never fails. */
  function Validate(job: Job): (r: Outcome<Error>)
    ensures r.Pass?
  {
    match SessionModifiers.Validate(job.modifiers)
    case Failure(e) => Fail(e)
    case Success(_) => Pass
  }
}
