/** Shared value types: optional values, HTTP error results and a JSON value. */
module Wrappers {

  datatype Option<T> = None | Some(value: T)

  /** An HTTPException as FastAPI raises it: a status code and a detail message. */
  datatype HttpError = HttpError(status: int, detail: string)

  /** The outcome of a handler: the value it returns, or the HTTPException it raises. */
  datatype Result<T> = Ok(value: T) | Err(error: HttpError) {
    predicate IsFailure() { Err? }

    function PropagateFailure<U>(): Result<U>
      requires Err?
    {
      Err(error)
    }

    function Extract(): T
      requires Ok?
    {
      value
    }
  }

  function Fail<T>(status: int, detail: string): Result<T>
  {
    Err(HttpError(status, detail))
  }

  /** A decoded JSON document, as `response.json()` / `request.json()` returns it. */
  datatype Json =
    | JNull
    | JBool(b: bool)
    | JNumber(n: int)
    | JString(s: string)
    | JArray(items: seq<Json>)
    | JObject(fields: map<string, Json>)

  /** Python truthiness of an optional id: None and 0 are both falsy. */
  predicate TruthyInt(o: Option<int>)
  {
    o.Some? && o.value != 0
  }

  /** Python truthiness of an optional string: None and "" are both falsy. */
  predicate TruthyString(o: Option<string>)
  {
    o.Some? && o.value != ""
  }
}
