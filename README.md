# Session creation for splat, modelled in Dafny

splat turns a declarative session description into repeated runs of external
commands. A session has session-wide details and an ordered list of job
templates. The details are a name, a logging flag, default modifiers and a run
shape. The shape is a selection strategy (Random, Linear or Interleave), a
total step count and a parallelism cap. Each job has a command, an optional
strategy-dependent `value` and its own modifiers. Modifiers are a wrapper
command plus stdout and stderr routing.

This project models how a parsed session is checked and resolved:

- **Validation** (`SessionCreate.Validate`). The checks run in a fixed order
  and stop at the first failure:
  1. the session name must be ASCII;
  2. the session modifiers are checked, which never fails;
  3. `steps` and `parallel` must both be non-zero;
  4. `parallel` must not exceed `steps`;
  5. the job list must be non-empty;
  6. each job is checked, which never fails;
  7. the aggregate `value` bound must hold.

  The aggregate is the sum of the job values, where an absent value counts as
  0. Under Random the code rejects a sum of 101 or more, so a sum of at most 100
  passes. Under Linear and Interleave it rejects a sum of `steps` or more, so
  the sum must be strictly below `steps`. A session that passes is returned
  unchanged.
- **Finalization** (`SessionCreate.Validated.Finalize`). This step cannot
  fail. For each job, in place and in order, it fills each unset wrapper,
  stdout or stderr field from the session's defaults. This happens once, one
  level deep, and a setting the job already has is never overwritten. The
  command and the value stay as they are.
- **Resolution of modifiers** (`SessionModifiers.Resolve`,
  `SessionDetails.ToDetails`). Converting to the resolved form keeps the
  wrapper. An absent stdout or stderr becomes `NoCapture`, which is the
  source's `Output::None`.
- **Lookup** (`Sessions.GetJobs`). It returns the job at an index, or nothing
  when the index is past the end.

Modules follow the source files:

| module | file |
|---|---|
| `Base` | Option, Result, `u64`, the ASCII test |
| `Errors` | the error type of `src/session/create.rs` |
| `SessionModifiers` | `src/session/modifiers.rs` |
| `SessionJob` | `src/session/job.rs` |
| `SessionDetails` | `src/session/details.rs` |
| `Sessions` | `src/session.rs` |
| `SessionCreate` | `src/session/create.rs` |
| `SessionScenarios` | concrete sessions at the edges of the rules |

The repository is in the middle of a refactor, and its files do not agree on
some types. The model reads them as follows:

- create.rs calls `DetailsConfiguration::validate` on the session's details and
  passes their modifiers to `Job::fill_in`. So the details of `Sessions.Session`
  are kept in configuration form (with optional fields). `finalize` returns
  that same record.
- job.rs declares its own `Modifiers` record, whose outputs are optional paths.
  Its `fill_in` follows the same field-wise rule as
  `ModifiersConfiguration::fill_in`. One configuration-form record,
  `SessionModifiers.ModifiersConfiguration`, stands for both.
- All validation errors are `Validation(message)`. The messages are the
  source's own text, including its wording "At least on Job must be supplied".

Where the design description and the code disagree, the model follows the
code:

- There is no missing-value error. A job without a `value` passes
  finalization (`SessionScenarios.AbsentValueAccepted`).
- Modifier strings are not checked for ASCII, because `validate` is a no-op.
- The Linear/Interleave bound is strict. A total equal to `steps` is rejected
  (`SessionScenarios.LinearStepsBoundary`), even though the error message says
  the total "exceeds" the session total.

## Model

| member | source | states |
|---|---|---|
| SessionModifiers.FillIn | src/session/modifiers.rs:26-36 | The returned modifiers are `own` with each unset field taken from `other`: the field-wise "keep own setting, else inherit" record `Inherited(own, other)` |
| SessionModifiers.InheritedKeepsOwnSettings | src/session/modifiers.rs:27-35 | A field already set is never overwritten. A field that was unset receives `other`'s value verbatim |
| SessionModifiers.InheritedUnsetIff | src/session/modifiers.rs:27-35 | After filling in, a field is unset exactly when it was unset both in the job and in the defaults |
| SessionModifiers.InheritedIdempotent | src/session/modifiers.rs:26-36 | Filling in twice from the same defaults equals filling in once |
| SessionModifiers.InheritedFromDefault | src/session/modifiers.rs:26-50 | Filling in from the `Default` (all-unset) modifiers is the identity |
| SessionModifiers.InheritedExtremes | src/session/modifiers.rs:26-36 | A job with nothing set receives exactly the defaults. A job with every field set is unchanged |
| SessionModifiers.Validate | src/session/modifiers.rs:38-40 | Validation of configuration-form modifiers always succeeds and returns the same modifiers |
| SessionModifiers.Resolve | src/session/modifiers.rs:52-71 | Resolution never fails and keeps the wrapper. A present stdout/stderr is kept as it is. An absent one becomes `NoCapture` |
| SessionModifiers.ResolveRoundTrip | src/session/modifiers.rs:55-71 | Resolving an already resolved record, written back with every field set, gives the same record. Filling it in again from any defaults leaves its outputs unchanged |
| SessionModifiers.ResolvedNoCaptureIff | src/session/modifiers.rs:60-64 | A resolved output is `NoCapture` iff the setting was absent or was itself `NoCapture` |
| SessionJob.FillIn | src/session/job.rs:19-21 | `Job::fill_in` leaves `cmd` and `value` unchanged and sets the modifiers to the job's own with the defaults filled into the unset fields |
| SessionJob.WithDefaultsIdempotent | src/session/job.rs:51-61 | Filling a job in twice from fixed defaults equals filling it in once. Filling in from the default modifiers leaves the job unchanged |
| SessionJob.WithDefaultsKeepsJobSettings | src/session/job.rs:52-60 | A job-level wrapper, stdout or stderr that is set survives filling in, whatever the defaults are |
| SessionJob.Validate | src/session/job.rs:23-26 | Job validation always passes |
| SessionDetails.ValidateShape | src/session/details.rs:107-115 | Succeeds iff `steps > 0`, `parallel > 0` and `parallel <= steps`, and then returns the shape unchanged. A zero gives the zero error, even when `parallel > steps` as well. Otherwise `parallel > steps` gives the ordering error |
| SessionDetails.Validate | src/session/details.rs:29-38 | Passes iff the name is ASCII and the shape is valid. A non-ASCII name is reported before the shape is looked at. Otherwise the error is the shape's |
| SessionDetails.ToDetails | src/session/details.rs:43-57 | The conversion fails exactly when `Validate` fails, with the same error. On success it keeps name, logging and shape exactly, and its modifiers are the resolved session modifiers |
| Sessions.GetJobs | src/session.rs:33-35 | Returns the `index`-th job iff `index` is below the number of jobs, and nothing otherwise |
| SessionCreate.ValidateJobs | src/session/create.rs:39-41 | Checking each job in order, stopping at the first failure, always passes |
| SessionCreate.CheckValueConstraints | src/session/create.rs:50-70 | Passes iff the summed values (absent counts as 0) are at most 100 under Random, and strictly below `steps` under Linear and Interleave. The error names the weight bound or the step bound according to the strategy |
| SessionCreate.Validate | src/session/create.rs:33-46 | Succeeds iff the name is ASCII, the shape is valid, there is at least one job and the aggregate bound holds. On success the session is returned unchanged. An empty job list is always rejected |
| SessionCreate.ValidateStopsAtFirstFailure | src/session/create.rs:33-45 | The result is the error of the first failing check in the order: name, shape zero test, shape ordering test, non-empty jobs, aggregate bound. It is success when no check fails |
| SessionCreate.TotalValueOfValues | src/session/create.rs:51-53 | The aggregate depends only on each job's value, with absent counted as 0. Commands and modifiers do not affect it |
| SessionCreate.AbsentValueCountsAsZero | src/session/create.rs:53 | An absent value and an explicit 0 give the same aggregate |
| SessionCreate.TotalValueBoundsEach | src/session/create.rs:51-53 | No single job's value exceeds the aggregate |
| SessionCreate.AcceptedValuesBounded | src/session/create.rs:55-67 | In an accepted session, every single weight is at most 100 under Random, and every single value is below `steps` under Linear and Interleave |
| SessionCreate.Validated.constructor | src/session/create.rs:83 | The validated wrapper holds exactly the given session, with its jobs in a fresh array |
| SessionCreate.Validated.Finalize | src/session/create.rs:87-94 | Updates every job in place to the job with the session defaults filled in. Details, job count and order are kept. It always returns a copy of the updated session |
| SessionCreate.FinalizedKeepsJobs | src/session/create.rs:87-94 | Finalization keeps details, job count and order, and each job's `cmd` and `value` (an absent value stays absent without error). Each job's modifiers become `Inherited(job, session defaults)` |
| SessionCreate.FinalizedIdempotent | src/session/create.rs:89-91 | Finalizing an already finalized session changes nothing |
| SessionCreate.FinalizedStaysValid | src/session/create.rs:87-94 | A validated session still validates after finalization |
| SessionCreate.FromParsed | src/session/create.rs:7-12 | Validating and then finalizing a parsed session gives the pipeline's result. It succeeds iff the session passes validation |
| SessionCreate.PipelineResult | src/session/create.rs:7-12 | The pipeline fails exactly when validation fails, with the same error. On success the result is the finalized session, `get_jobs(0)` returns its first (filled-in) job, and the result validates again |
| SessionScenarios.RandomWeightBoundary | src/session/create.rs:56-59 | Under Random, weights 60+40 = 100 pass and 60+41 = 101 fail with the weight error |
| SessionScenarios.LinearStepsBoundary | src/session/create.rs:61-66 | Under Linear with 10 steps, totals 10 and 12 are rejected with the step error, and 9 passes |
| SessionScenarios.InterleaveStepsBoundary | src/session/create.rs:61-66 | Under Interleave with 6 steps, a total of 6 is rejected and 3 passes |
| SessionScenarios.ZeroTestComesFirst | src/session/details.rs:108-113 | `steps = 0, parallel = 5` gives the zero error. `steps = 3, parallel = 5` gives the ordering error |
| SessionScenarios.NoJobsRejected | src/session/create.rs:36-38 | A session with valid details and no jobs is rejected with the no-jobs error |
| SessionScenarios.NameCheckedFirst | src/session/details.rs:31-36 | A non-ASCII name is reported even when the shape and the job list are also invalid |
| SessionScenarios.AbsentValueAccepted | src/session/create.rs:87-94 | A session whose only job has no value passes the whole pipeline |
| SessionScenarios.StdoutInherited | src/session/modifiers.rs:30-32 | A session-level stdout reaches a job that sets none. A job-level stdout is kept |

## Left out

- Reading the configuration file and parsing TOML (`TryFrom<PathBuf>`, the
  first line of `from_path`) are not modelled. The parsed session is the input,
  so the `Io` and `Parse` errors never arise. The serde renames and defaults
  are left out too. `SessionDetails.DefaultSelect` records that the default
  strategy is Linear.
- The tests in create.rs read asset files that are not part of this model.
- Job scheduling is not modelled. `Session::next_job` and `Job::as_command` are
  unimplemented in the source, and the Random, Linear and Interleave run
  behaviour exists only as documentation. Process launch, randomness and
  concurrency are left out with it.
- src/config.rs (an older pipeline that is not compiled), command-line parsing
  (src/setup.rs), log setup (src/logging.rs) and src/main.rs are not part of
  this model. The debug log line in `DetailsConfiguration::validate` is left out
  as well.
- SessionCreate.CheckValueConstraints: sums values as unbounded integers. The
  source folds them in `u64`, so its wrap-around or overflow panic on huge
  values is not captured.
- SessionModifiers.FillIn: `&mut self` is modelled as returning the updated
  record, which the caller writes back (`Finalize` stores it into the job
  array). Rust's exclusive borrow rules out aliasing, so no sharing is lost.
- SessionJob.FillIn: modelled the same way as `SessionModifiers.FillIn`.
- Sessions.GetJobs: the index is a natural number. The `usize` width is not
  modelled.
- The resolved `Details`/`Modifiers` forms are produced only by
  `SessionDetails.ToDetails` and `SessionModifiers.Resolve`. As in the source,
  `finalize` returns the session with configuration-form details.
