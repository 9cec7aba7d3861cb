/**
 * Shared vocabulary of the function core: the exceptions it throws, the
 * outcome of an operation that may throw, and the parameters every
 * evaluation receives.
 */
module Common {

  /** The exceptions the core throws (DUNE_THROW with these classes). */
  datatype Error =
    | NotImplemented(message: string)
      // XT::Common::Exceptions::shapes_do_not_match, raised by assert_correct_dims
    | ShapesDoNotMatch(caller: string, row: nat, col: nat)
      // Dune::RangeError, raised by the string-keyed factory
    | RangeError(requested: string)
      // whatever parse_and_check rejects a parameter with
    | ParameterMismatch(message: string)

  /** A value, or the exception that was thrown instead of returning it. */
  datatype Result<+T> = Success(value: T) | Failure(error: Error)

  datatype Option<+T> = None | Some(value: T)

  /** The outcome of a `void` operation: it returns, or it throws. */
  datatype Outcome = Pass | Fail(error: Error)

  /** Common::Parameter: values for named slots. */
  type Parameter = map<string, seq<real>>

  /** Common::ParameterType: named slots and their sizes. */
  type ParameterType = map<string, nat>

  /** The empty parameter `{}` every evaluation defaults to. */
  const NoParameter: Parameter := map[]

  /**
   * ParametricInterface::parse_and_check of a function whose parameter type
   * is the first argument. Its definition is not part of this model, so the
   * operations that use it receive it as an argument. It returns the parsed
   * parameter, or fails with `ParameterMismatch` when the parameter does not
   * fit the type.
   */
  type ParseAndCheck = (ParameterType, Parameter) -> Result<Parameter>
}
