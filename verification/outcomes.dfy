/**
 * Option and Result types shared by every module of the model, together with the
 * error conditions the modelled components report.
 */
module Outcomes {

  datatype Option<T> = None | Some(value: T)
  {
    function GetOr(default: T): (r: T)
      ensures Some? ==> r == value
      ensures None? ==> r == default
    {
      match this
      case Some(v) => v
      case None => default
    }
  }

  /** Every way an operation of the model can refuse its input. */
  datatype Error =
    | UnknownEntity(entityType: string)
    | UnknownRelation(relation: string)
    | UnknownAttribute(attribute: string)
    | UnknownFunction(name: string)
    | WrongArgumentCount(name: string)
    | SyntaxError(text: string)
    | MalformedFilter(key: string)
    | MissingId
    | NotSupported(what: string)
    | EmptyPadString
    | Forbidden(action: string)

  datatype Result<T> = Ok(value: T) | Fail(error: Error)
  {
    predicate IsFailure() { Fail? }

    function PropagateFailure<U>(): Result<U>
      requires Fail?
    {
      Fail(error)
    }

    function Extract(): T
      requires Ok?
    {
      value
    }
  }
}
