/** What the model sees of an axios failure: its message and, when the
    server answered, the kind of value `response.data` holds. */
module Http {
  import opened Wrappers

  /** JavaScript truthiness of an optional string field: present and non-empty. */
  predicate TruthyText(field: Option<string>)
  {
    field.Some? && field.value != ""
  }

  /** The JavaScript value of `response.data`. `Obj` is any object (arrays
      included) and carries the text `JSON.stringify` gives for it; `Other`
      stands for numbers and booleans, whose only relevant attribute here is
      their truthiness. */
  datatype Body =
    | Undefined
    | Null
    | Str(text: string)
    | Obj(json: string)
    | Other(truthy: bool)

  /** JavaScript truthiness of a body. */
  predicate Truthy(b: Body)
  {
    match b
    case Undefined => false
    case Null => false
    case Str(t) => t != ""
    case Obj(_) => true
    case Other(t) => t
  }

  /** An `AxiosError`: `response` is `None` when no response arrived. */
  datatype HttpError = HttpError(message: string, response: Option<Body>)

  /** The body of the response, when there is one and it is truthy. */
  predicate HasTruthyBody(err: HttpError)
  {
    err.response.Some? && Truthy(err.response.value)
  }

  /** `e.response?.data && typeof(e.response.data) === "string"`. */
  predicate HasStringBody(err: HttpError)
  {
    HasTruthyBody(err) && err.response.value.Str?
  }
}
