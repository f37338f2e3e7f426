/** Result types shared by every module, and the error classes of the service layer. */
module Wrappers {

  datatype Option<+T> = None | Some(value: T)

  datatype Result<+T, +E> = Ok(value: T) | Err(error: E) {

    predicate IsFailure() { Err? }

    function PropagateFailure<U>(): Result<U, E>
      requires Err?
    {
      Err(error)
    }

    function Extract(): T
      requires Ok?
    {
      value
    }
  }

  /** One case per exception class of app/core/exceptions.py. `Interno` stands for every
      exception the request handlers do not translate: the answer is a 500 and, as with
      all the others, the session rolls back. */
  datatype Error =
    | NoEncontrado
    | YaExiste
    | Validacion
    | ReglaDeNegocio
    | NoAutenticado
    | NoAutorizado
    | Interno
}
