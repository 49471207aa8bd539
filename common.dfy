/** Values shared by the services: optional request fields and the status
    of a JSON reply. */
module Common {

  datatype Option<T> = None | Some(value: T)

  /** The outcome a service reports, with the HTTP status it is sent with. */
  datatype Reply = Ok | BadRequest | NotFound | ServerError {
    function Status(): nat {
      match this
      case Ok => 200
      case BadRequest => 400
      case NotFound => 404
      case ServerError => 500
    }
  }

  /** Python truthiness of an optional integer field: `not x` holds for a
      missing field (None) and for 0. */
  predicate Truthy(x: Option<int>) {
    x.Some? && x.value != 0
  }

  /** Python truthiness of an optional text field: None and "" are falsy. */
  predicate TruthyText(x: Option<string>) {
    x.Some? && x.value != ""
  }
}
