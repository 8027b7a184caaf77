/** The engine's value and error types as far as the dispatch core uses them.
    `Dynamic` and `EvalAltResult` live elsewhere in the engine; only the
    shapes the core moves around are modelled here. */
module Values {

  datatype Option<+T> = None | Some(value: T)

  datatype Result<+T, +E> = Ok(value: T) | Err(error: E)

  /** A type-erased script value. `Unit` is `()`, which is also its default
      value and therefore what `mem::take` leaves behind in a slot. Every
      other value is opaque to the dispatch core: it is moved and cloned,
      never inspected. */
  datatype Dynamic = Unit | Opaque(typeTag: nat, payload: nat)

  /** The errors the dispatch core raises itself, plus any other error that a
      called function raises and that is passed through unchanged. Source
      positions are dropped (the core only ever uses `Position::NONE`). */
  datatype EvalError =
    | ErrorFunctionNotFound(fnName: string)
    | ErrorMismatchOutputType(requested: string, actual: string)
    | ErrorRaised(detail: nat)

  /** `RhaiResult`: a dynamic value or an error. */
  type RhaiResult = Result<Dynamic, EvalError>
}
