/** Execution modifiers of a job: a wrapper command and where stdout and stderr
    go (src/session/modifiers.rs, and the `Modifiers` record of
    src/session/job.rs, which follows the same rule). They exist in two forms:
    the configuration form, in which every field may be left out so that a job
    can inherit it from the session, and the resolved form, in which an absent
    output has been closed to `NoCapture`. */
module SessionModifiers {
  import opened Base
  import opened Errors

  /** Where the output of a launched program goes. `NoCapture` is the source's
      `Output::None`: nothing is captured. */
  datatype Output = File(path: string) | Piped | Both(path: string) | NoCapture

  /** Configuration form: every field may be unset. */
  datatype ModifiersConfiguration = ModifiersConfiguration(
    wrapper: Option<string>,
    stdout: Option<Output>,
    stderr: Option<Output>)

  /** Resolved form: outputs are always decided; the wrapper stays optional. */
  datatype Modifiers = Modifiers(
    wrapper: Option<string>,
    stdout: Output,
    stderr: Output)

  /** `Default for ModifiersConfiguration`: nothing set. */
  const DefaultModifiers: ModifiersConfiguration := ModifiersConfiguration(None, None, None)

  /** The modifiers `own` ends up with once `other` has been filled in: each
      field keeps its own setting and otherwise takes `other`'s. */
  function Inherited(own: ModifiersConfiguration, other: ModifiersConfiguration): ModifiersConfiguration
  {
    ModifiersConfiguration(
      Or(own.wrapper, other.wrapper),
      Or(own.stdout, other.stdout),
      Or(own.stderr, other.stderr))
  }

  /** `fill_in`: copies each field of `other` into `own` when `own` has it unset
      and `other` has it set. `&mut self` is modelled by returning the updated
      record; the caller stores it back. */
  method FillIn(own: ModifiersConfiguration, other: ModifiersConfiguration)
    returns (filled: ModifiersConfiguration)
    ensures filled == Inherited(own, other)
  {
    filled := own;
    if filled.wrapper.None? && other.wrapper.Some? {
      filled := filled.(wrapper := other.wrapper);
    }
    if filled.stdout.None? && other.stdout.Some? {
      filled := filled.(stdout := other.stdout);
    }
    if filled.stderr.None? && other.stderr.Some? {
      filled := filled.(stderr := other.stderr);
    }
  }

  /** A field already set is never overwritten, and a field that was unset
      receives `other`'s setting verbatim. */
  lemma InheritedKeepsOwnSettings(own: ModifiersConfiguration, other: ModifiersConfiguration)
    ensures own.wrapper.Some? ==> Inherited(own, other).wrapper == own.wrapper
    ensures own.stdout.Some? ==> Inherited(own, other).stdout == own.stdout
    ensures own.stderr.Some? ==> Inherited(own, other).stderr == own.stderr
    ensures own.wrapper.None? ==> Inherited(own, other).wrapper == other.wrapper
    ensures own.stdout.None? ==> Inherited(own, other).stdout == other.stdout
    ensures own.stderr.None? ==> Inherited(own, other).stderr == other.stderr
  {
  }

  /** After filling in, a field is unset exactly when it was unset on both sides. */
  lemma InheritedUnsetIff(own: ModifiersConfiguration, other: ModifiersConfiguration)
    ensures Inherited(own, other).wrapper.None? <==> own.wrapper.None? && other.wrapper.None?
    ensures Inherited(own, other).stdout.None? <==> own.stdout.None? && other.stdout.None?
    ensures Inherited(own, other).stderr.None? <==> own.stderr.None? && other.stderr.None?
  {
  }

  /** Filling in twice from the same defaults is the same as filling in once. */
  lemma InheritedIdempotent(own: ModifiersConfiguration, other: ModifiersConfiguration)
    ensures Inherited(Inherited(own, other), other) == Inherited(own, other)
  {
  }

  /** Filling in from the default (all unset) modifiers changes nothing. */
  lemma InheritedFromDefault(own: ModifiersConfiguration)
    ensures Inherited(own, DefaultModifiers) == own
  {
  }

  /** Inheritance is one level deep: when the job sets nothing, it receives the
      session's settings exactly, and a fully set job receives nothing. */
  lemma InheritedExtremes(own: ModifiersConfiguration, other: ModifiersConfiguration)
    ensures own == DefaultModifiers ==> Inherited(own, other) == other
    ensures own.wrapper.Some? && own.stdout.Some? && own.stderr.Some? ==> Inherited(own, other) == own
  {
  }

  /** `validate` on configuration-form modifiers: no check is made, so it
      always succeeds and hands back the same modifiers. */
  function Validate(m: ModifiersConfiguration): (r: Result<ModifiersConfiguration, Error>)
    ensures r.Success? && r.value == m
  {
    Success(m)
  }

  /** The resolved output for an optional setting: absent becomes `NoCapture`. */
  function CloseOutput(o: Option<Output>): Output
  {
    if o.None? then NoCapture else o.value
  }

  /** `TryFrom<ModifiersConfiguration> for Modifiers`: validates (which never
      fails), keeps the wrapper, and closes an absent stdout or stderr to
      `NoCapture` while keeping a present one as it is. */
  function Resolve(m: ModifiersConfiguration): (r: Result<Modifiers, Error>)
    ensures r.Success?
    ensures r.value.wrapper == m.wrapper
    ensures m.stdout.Some? ==> r.value.stdout == m.stdout.value
    ensures m.stderr.Some? ==> r.value.stderr == m.stderr.value
    ensures m.stdout.None? ==> r.value.stdout == NoCapture
    ensures m.stderr.None? ==> r.value.stderr == NoCapture
  {
    match Validate(m)
    case Failure(e) => Failure(e)
    case Success(checked) =>
      Success(Modifiers(checked.wrapper, CloseOutput(checked.stdout), CloseOutput(checked.stderr)))
  }

  /** A resolved record written back in configuration form, every field set. */
  function AsConfiguration(m: Modifiers): ModifiersConfiguration
  {
    ModifiersConfiguration(m.wrapper, Some(m.stdout), Some(m.stderr))
  }

  /** Resolving an already resolved record is a round trip, and filling it in
      again from any defaults changes no output: resolution is idempotent. */
  lemma ResolveRoundTrip(m: Modifiers, defaults: ModifiersConfiguration)
    ensures Resolve(AsConfiguration(m)) == Success(m)
    ensures Resolve(Inherited(AsConfiguration(m), defaults)).value.stdout == m.stdout
    ensures Resolve(Inherited(AsConfiguration(m), defaults)).value.stderr == m.stderr
  {
  }

  /** A resolved output is `NoCapture` exactly when the setting was absent or
      was itself `NoCapture`. */
  lemma ResolvedNoCaptureIff(m: ModifiersConfiguration)
    ensures Resolve(m).value.stdout == NoCapture <==> m.stdout.None? || m.stdout == Some(NoCapture)
    ensures Resolve(m).value.stderr == NoCapture <==> m.stderr.None? || m.stderr == Some(NoCapture)
  {
  }
}
