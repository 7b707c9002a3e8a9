/** Session-wide details (src/session/details.rs): a name, the logging flag,
    the session-level modifier defaults, and the run shape. */
module SessionDetails {
  import opened Base
  import opened Errors
  import SessionModifiers

  /** How the next job is selected. Only the choice is modelled; the selection
      itself is not implemented by the system. */
  datatype Select = Random | Linear | Interleave

  /** `Default for Select`. */
  const DefaultSelect: Select := Linear

  /** The numeric description of a run: strategy, total steps, concurrency. */
  datatype Shape = Shape(select: Select, steps: u64, parallel: u64)

  /** Configuration form: modifiers may be unset. */
  datatype DetailsConfiguration = DetailsConfiguration(
    name: string,
    logging: bool,
    modifiers: SessionModifiers.ModifiersConfiguration,
    shape: Shape)

  /** Resolved form: outputs closed. */
  datatype Details = Details(
    name: string,
    logging: bool,
    modifiers: SessionModifiers.Modifiers,
    shape: Shape)

  const NameNotAscii: Error := Validation("Session name must be ascii")
  const ShapeNotPositive: Error := Validation("`steps` and `parallel` must both be greater than zero")
  const ParallelExceedsSteps: Error := Validation("`parallel` may not exceed `steps`")

  /** The invariant of a valid shape. */
  predicate ValidShape(shape: Shape)
  {
    shape.steps > 0 && shape.parallel > 0 && shape.parallel <= shape.steps
  }

  /** `Shape::validate`: the zero test comes first, then the ordering test; on
      success the shape is handed back unchanged. */
  function ValidateShape(shape: Shape): (r: Result<Shape, Error>)
    ensures r.Success? <==> ValidShape(shape)
    ensures r.Success? ==> r.value == shape
    ensures shape.steps == 0 || shape.parallel == 0 ==> r == Failure(ShapeNotPositive)
    ensures shape.steps > 0 && shape.parallel > shape.steps ==> r == Failure(ParallelExceedsSteps)
  {
    if shape.steps == 0 || shape.parallel == 0 then
      Failure(ShapeNotPositive)
    else if shape.steps < shape.parallel then
      Failure(ParallelExceedsSteps)
    else
      Success(shape)
  }

  /** `DetailsConfiguration::validate`: the name must be ASCII, then the
      modifiers are validated (a no-op), then the shape. */
  function Validate(details: DetailsConfiguration): (r: Outcome<Error>)
    ensures r.Pass? <==> IsAscii(details.name) && ValidShape(details.shape)
    ensures !IsAscii(details.name) ==> r == Fail(NameNotAscii)
    ensures IsAscii(details.name) && r.Fail? ==> Failure(r.error) == ValidateShape(details.shape)
  {
    if !IsAscii(details.name) then
      Fail(NameNotAscii)
    else
      match SessionModifiers.Validate(details.modifiers)
      case Failure(e) => Fail(e)
      case Success(_) =>
        match ValidateShape(details.shape)
        case Failure(e) => Fail(e)
        case Success(_) => Pass
  }

  /** `TryFrom<DetailsConfiguration> for Details`: the same checks as
      `Validate`, then name, logging and shape are carried over exactly and the
      modifiers are resolved. */
  function ToDetails(config: DetailsConfiguration): (r: Result<Details, Error>)
    ensures r.Success? <==> Validate(config).Pass?
    ensures r.Failure? ==> r.error == Validate(config).error
    ensures r.Success? ==> r.value.name == config.name && r.value.logging == config.logging
                           && r.value.shape == config.shape
    ensures r.Success? ==> Success(r.value.modifiers) == SessionModifiers.Resolve(config.modifiers)
  {
    if !IsAscii(config.name) then
      Failure(NameNotAscii)
    else
      match SessionModifiers.Validate(config.modifiers)
      case Failure(e) => Failure(e)
      case Success(_) =>
        match ValidateShape(config.shape)
        case Failure(e) => Failure(e)
        case Success(_) =>
          match SessionModifiers.Validate(config.modifiers)
          case Failure(e) => Failure(e)
          case Success(checked) =>
            match SessionModifiers.Resolve(checked)
            case Failure(e) => Failure(e)
            case Success(modifiers) =>
              match ValidateShape(config.shape)
              case Failure(e) => Failure(e)
              case Success(shape) =>
                Success(Details(config.name, config.logging, modifiers, shape))
  }
}
