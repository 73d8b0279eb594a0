/** What the service takes from its toolkit and framework: the `APIError`
    raised by `handle_exception`, Python's other exceptions, the except
    clauses every backend call wraps around its request, JSON documents and
    the response object a resource handler fills in. */
module Toolkit {

  datatype Option<T> = None | Some(value: T)

  /** A raised exception: an `APIError(code, cause)`, or any other exception,
      named by its Python class (`KeyError`, `IndexError`, `ValueError`,
      `JSONDecodeError`, `RequestException`, ...). */
  datatype Exception = APIError(code: string, cause: string) | Builtin(kind: string)

  /** The outcome of a Python call: a returned value or a raised exception. */
  datatype Result<T> = Ok(value: T) | Raise(exc: Exception)

  const BackendCode: string := "Bad backend HTTP request"
  const BackendCause: string := "Problem with backend HTTP request."
  const ConnectionCode: string := "Failure making http request"
  const ConnectionCause: string := "Bad host/port/path/connection"

  /** `handle_exception(code=..., cause=..., error=...)` always raises
      `APIError` carrying the given code and cause; these are the two it is
      called with. */
  const BackendFailure: Exception := APIError(BackendCode, BackendCause)
  const ConnectionFailure: Exception := APIError(ConnectionCode, ConnectionCause)

  /** The except clauses around every backend request: an `APIError` is
      re-raised unchanged; any other exception goes to `handle_exception`
      with the connection code and cause. */
  function ExceptClauses<T>(attempt: Result<T>): (r: Result<T>)
    ensures r.Raise? ==> r.exc.APIError?
    ensures attempt.Ok? ==> r == attempt
    ensures attempt.Raise? && attempt.exc.APIError? ==> r == attempt
    ensures attempt.Raise? && attempt.exc.Builtin? ==> r == Raise(ConnectionFailure)
  {
    match attempt
    case Ok(_) => attempt
    case Raise(APIError(_, _)) => attempt
    case Raise(Builtin(_)) => Raise(ConnectionFailure)
  }

  /** Passing a call's outcome through the except clauses a second time
      changes nothing: an already classified failure keeps its cause. */
  lemma ExceptClausesIdempotent<T>(attempt: Result<T>)
    ensures ExceptClauses(ExceptClauses(attempt)) == ExceptClauses(attempt)
  {
  }

  /** A JSON document as `json.loads` gives it and `json.dumps` takes it;
      objects keep their insertion order. Floating-point numbers are left out. */
  datatype Json =
    | Null
    | Bool(b: bool)
    | Num(n: int)
    | Str(s: string)
    | Arr(items: seq<Json>)
    | Obj(fields: seq<(string, Json)>)

  /** A list of strings as a JSON array. */
  function StrArray(ss: seq<string>): (doc: Json)
    ensures doc.Arr? && |doc.items| == |ss|
    ensures forall i :: 0 <= i < |ss| ==> doc.items[i] == Str(ss[i])
  {
    Arr(seq(|ss|, i requires 0 <= i < |ss| => Str(ss[i])))
  }

  /** `{"data": data}`, the envelope the resource handlers answer with. */
  function Envelope(data: Json): (doc: Json)
    ensures doc.Obj? && |doc.fields| == 1
    ensures doc.fields[0].0 == "data" && doc.fields[0].1 == data
  {
    Obj([("data", data)])
  }

  /** A response body: literal text, or `json.dumps(doc)`. */
  datatype Body = Text(text: string) | Dumped(doc: Json)

  const HttpNoContent: int := 204

  /** The response object the hosting framework hands to a handler. */
  class Response {
    var body: Body
    var status: int

    constructor (body: Body, status: int)
      ensures this.body == body && this.status == status
    {
      this.body := body;
      this.status := status;
    }
  }
}
