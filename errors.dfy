/**
 * The two-kind error taxonomy the handlers return. The module that defines
 * it in the repository (src/util/errors.rs) is not part of this model; what
 * the rest of the model needs of it is written down here.
 */
module Errors {
  import opened Wrappers
  import opened Http

  /**
   * `Human`: an expected failure that may be shown to the caller, possibly with
   * a response already rendered for it. `Internal`: an unexpected failure with an
   * optional diagnostic detail that is never shown to the caller.
   */
  datatype DomainError =
    | Human(message: string, response: Option<Response>)
    | Internal(description: string, detail: Option<string>)

  /** A failure handed back to the framework, which renders its own generic response. */
  datatype Fatal = Fatal(cause: DomainError)

  /** `human(msg)`: a user-facing error; this model attaches no rendered response to it. */
  function NewHuman(message: string): DomainError
  {
    Human(message, None)
  }

  /** `internal(desc)`: an unexpected failure with no detail. */
  function NewInternal(description: string): DomainError
  {
    Internal(description, None)
  }

  /** `internal_error(desc, detail)`: an unexpected failure carrying diagnostic detail. */
  function NewInternalWithDetail(description: string, detail: string): DomainError
  {
    Internal(description, Some(detail))
  }

  /** `CargoError::response`: the pre-rendered response, which only a human error can carry. */
  function RenderedResponse(e: DomainError): (r: Option<Response>)
    ensures r.Some? ==> e.Human?
    ensures e.Human? ==> r == e.response
  {
    match e
    case Human(_, response) => response
    case Internal(_, _) => None
  }
}
