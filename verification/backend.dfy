/** The remote catalogue as the service sees it: its entries, what a request
    to it can come back with, the requests the service sends, and the two
    shapes the `try` block of a backend call takes. */
module Backend {
  import opened Toolkit

  /** The `info` object of an entry: its comma-separated `tags` and every
      other field, kept as received. */
  datatype Info = Info(tags: string, otherInfo: seq<(string, Json)>)

  /** One catalogue entry: `name`, `apiVersion`, `info` and every other field. */
  datatype Entry = Entry(name: string, apiVersion: string, info: Info, otherFields: seq<(string, Json)>)

  /** HTTP request headers. */
  type Headers = map<string, string>

  /** What the login POST comes back with: nothing (the request raised:
      timeout, refused connection, bad host), or a status and the value of the
      `set-cookie` header when there is one. */
  datatype LoginOutcome = LoginUnreachable | LoginReply(status: int, setCookie: Option<string>)

  /** What a catalogue request comes back with: nothing (the request raised),
      or a status and the body as `json.loads` decodes it (`None` when
      decoding raises). */
  datatype HttpOutcome<T> = Unreachable | Reply(status: int, decoded: Option<T>)

  /** A request the service sends to the backend. */
  datatype Request =
    | LoginPost
    | Get(url: string, headers: Headers)
    | Post(url: string, headers: Headers, body: Entry)

  /** Status 200 with a body that decodes. */
  predicate Delivered<T>(o: HttpOutcome<T>)
  {
    o.Reply? && o.status == 200 && o.decoded.Some?
  }

  /** The `try` block of `get_all_apis` and `get_single_api_data`: send,
      decode the body, and only then look at the status. */
  function DecodeThenCheck<T>(o: HttpOutcome<T>): (r: Result<T>)
    ensures r.Ok? <==> Delivered(o)
    ensures r.Ok? ==> r.value == o.decoded.value
    ensures r.Raise? && r.exc.APIError? <==> o.Reply? && o.status != 200 && o.decoded.Some?
    ensures r.Raise? && r.exc.APIError? ==> r.exc == BackendFailure
  {
    match o
    case Unreachable => Raise(Builtin("RequestException"))
    case Reply(status, decoded) =>
      if decoded.None? then Raise(Builtin("JSONDecodeError"))
      else if status == 200 then Ok(decoded.value)
      else Raise(BackendFailure)
  }

  /** The `try` block of `update_api_tags`: send, look at the status, and
      decode the body only after a 200. */
  function CheckThenDecode<T>(o: HttpOutcome<T>): (r: Result<T>)
    ensures r.Ok? <==> Delivered(o)
    ensures r.Ok? ==> r.value == o.decoded.value
    ensures r.Raise? && r.exc.APIError? <==> o.Reply? && o.status != 200
    ensures r.Raise? && r.exc.APIError? ==> r.exc == BackendFailure
  {
    match o
    case Unreachable => Raise(Builtin("RequestException"))
    case Reply(status, decoded) =>
      if status != 200 then Raise(BackendFailure)
      else if decoded.None? then Raise(Builtin("JSONDecodeError"))
      else Ok(decoded.value)
  }

  /** Classification of a decode-first call: the decoded body on a delivered
      200; the backend failure for any other status whose body decodes; the
      connection failure when the request raised or the body does not decode,
      whatever the status. */
  lemma DecodeThenCheckClassifies<T>(o: HttpOutcome<T>)
    ensures ExceptClauses(DecodeThenCheck(o)) ==
      if Delivered(o) then Ok(o.decoded.value)
      else if o.Reply? && o.decoded.Some? then Raise(BackendFailure)
      else Raise(ConnectionFailure)
  {
  }

  /** Classification of a status-first call: the decoded body on a delivered
      200; the backend failure for every other status; the connection failure
      when the request raised or a 200 body does not decode. */
  lemma CheckThenDecodeClassifies<T>(o: HttpOutcome<T>)
    ensures ExceptClauses(CheckThenDecode(o)) ==
      if Delivered(o) then Ok(o.decoded.value)
      else if o.Reply? && o.status != 200 then Raise(BackendFailure)
      else Raise(ConnectionFailure)
  {
  }

  /** The two shapes classify alike except on a non-200 reply whose body does
      not decode, which one calls a connection failure and the other a
      backend failure. */
  lemma DecodeOrderMatters<T>(o: HttpOutcome<T>)
    ensures ExceptClauses(DecodeThenCheck(o)) != ExceptClauses(CheckThenDecode(o))
            <==> o.Reply? && o.status != 200 && o.decoded.None?
    ensures o.Reply? && o.status != 200 && o.decoded.None? ==>
              ExceptClauses(DecodeThenCheck(o)) == Raise(ConnectionFailure) &&
              ExceptClauses(CheckThenDecode(o)) == Raise(BackendFailure)
  {
  }
}
