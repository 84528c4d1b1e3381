/**
  The request/response sequence every endpoint repeats (albums.go,
  sharedAlbums.go): send the request, check the status with `RequestError`,
  read the body, decode it. On any failure the endpoint returns its response
  type's zero value together with the error.

  The transport's outcome is an input. Reading a body consumes it: when
  `RequestError` has read a non-2xx body, the endpoint's own read yields no
  bytes, and decoding no bytes fails.
 */
module Exchange {
  import opened Errors
  import opened Records
  import opened Status
  import Queries

  datatype Verb = GET | POST

  datatype RequestBody =
    | NoBody
    | EnrichmentBody(enrichment: AddEnrichmentRequest)
    | MediaItemIdsBody(mediaItemIds: seq<string>)
    | CreateBody(create: CreateRequest)
    | ShareBody(options: SharedAlbumOptions)
    | ShareTokenBody(shareToken: string)

  datatype Request = Request(verb: Verb, url: string, query: Queries.Values, body: RequestBody)

  /**
    A decoding endpoint: the request it sends and what it returns, or only what
    it returns when it fails before sending anything.
   */
  datatype Call<+T> = Call(request: Request, reply: Reply<T>) | Unsent(reply: Reply<T>)

  /** An endpoint that returns only an error. */
  datatype StatusCall = StatusCall(request: Request, err: Option<Error>)

  /** What reading a body yields; a consumed body yields no bytes. */
  datatype Bytes<+T> = NoBytes | Bytes(payload: Payload<T>)

  function ReadAll<T>(body: Body<T>, consumed: bool): (r: Result<Bytes<T>>)
  {
    if consumed then Ok(NoBytes)
    else
      match body
      case Unreadable(e) => Err(e)
      case Readable(p) => Ok(Bytes(p))
  }

  function Unmarshal<T>(b: Bytes<T>): (r: Result<T>)
  {
    match b
    case NoBytes => Err(EndOfInput)
    case Bytes(p) => p.asValue
  }

  /** The exchange yields a value: a 2xx response whose body decodes. */
  predicate Delivers<T>(x: Result<Response<T>>)
  {
    && x.Ok?
    && Successful(x.value.statusCode)
    && x.value.body.Readable?
    && x.value.body.payload.asValue.Ok?
  }

  /** The error a decoding endpoint reports for an exchange that does not deliver. */
  function Failure<T>(x: Result<Response<T>>): (e: Error)
    requires !Delivers(x)
  {
    if x.Err? then x.error
    else
      var body := x.value.body;
      if body.Unreadable? then body.readError
      else if Successful(x.value.statusCode) then body.payload.asValue.error
      else if body.payload.asError.Err? then body.payload.asError.error
      else EndOfInput
  }

  /** The reply a decoding endpoint owes for exchange `x`. */
  ghost predicate Answers<T>(r: Reply<T>, zero: T, x: Result<Response<T>>)
  {
    && (r.err.None? <==> Delivers(x))
    && (r.err.Some? ==> r.value == zero && r.err.value == Failure(x))
    && (r.err.None? ==> r.value == x.value.body.payload.asValue.value)
  }

  function Complete<T>(zero: T, x: Result<Response<T>>): (r: Reply<T>)
    ensures Answers(r, zero, x)
  {
    match x
    case Err(e) => Reply(zero, Some(e))
    case Ok(resp) =>
      var checked := RequestError(resp);
      if checked.err.Some? then Reply(zero, checked.err)
      else
        match ReadAll(resp.body, checked.bodyConsumed)
        case Err(e) => Reply(zero, Some(e))
        case Ok(bytes) =>
          match Unmarshal(bytes)
          case Err(e) => Reply(zero, Some(e))
          case Ok(v) => Reply(v, None)
  }

  /** The exchange passes the status check of an endpoint that decodes nothing. */
  predicate Accepted<T>(x: Result<Response<T>>)
  {
    && x.Ok?
    && (|| Successful(x.value.statusCode)
        || (x.value.body.Readable? && x.value.body.payload.asError.Ok?))
  }

  function CompleteStatus<T>(x: Result<Response<T>>): (err: Option<Error>)
    ensures err.None? <==> Accepted(x)
    ensures x.Err? ==> err == Some(x.error)
    ensures x.Ok? && x.value.body.Unreadable? && err.Some? ==> err.value == x.value.body.readError
    ensures x.Ok? && x.value.body.Readable? && err.Some? ==> err.value == x.value.body.payload.asError.error
  {
    match x
    case Err(e) => Some(e)
    case Ok(resp) => RequestError(resp).err
  }

  /**
    A non-2xx response whose error payload decodes: a decoding endpoint still
    fails, but only because its second read finds the body consumed; an
    endpoint that decodes nothing reports success.
   */
  lemma SwallowedPayload<T>(zero: T, x: Result<Response<T>>)
    requires x.Ok? && !Successful(x.value.statusCode)
    requires x.value.body.Readable? && x.value.body.payload.asError.Ok?
    ensures Complete(zero, x) == Reply(zero, Some(EndOfInput))
    ensures CompleteStatus(x) == None
  {
  }

  /** The not-found response of the service, as the status-only endpoints see it. */
  lemma NotFoundIsSilent()
    ensures CompleteStatus(Ok(Response(404, Readable(Payload(
      Ok(ErrorResponse("404", "not found", "NOT_FOUND")), Ok(()))))))
      == None
  {
  }
}
