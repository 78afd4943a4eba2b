// How calculation results and errors become HTTP responses: the status code
// each error maps to, the JSON error object, and the body of the response.
//
// What serde_json writes is not modelled: `toWriter` stands for
// `serde_json::to_writer` into a fresh buffer and yields the bytes written, or
// None when it fails.
module JsonResponses {
  import opened Results
  import opened CalculationErrors

  type Bytes = seq<bv8>

  datatype StatusCode = StatusCode(code: nat)

  const OK: StatusCode := StatusCode(200)
  const BAD_REQUEST: StatusCode := StatusCode(400)
  const INTERNAL_SERVER_ERROR: StatusCode := StatusCode(500)

  const JsonContentType: string := "application/json"

  /** The HTTP response handed to the server: status, content type and body. */
  datatype Response = Response(status: StatusCode, contentType: string, body: Bytes)

  /** The status and body of an emitted response; a missing body is sent empty. */
  function EmitJson(status: StatusCode, body: Option<Bytes>): (resp: Response)
    ensures resp.status == status && resp.contentType == JsonContentType
    ensures body.None? ==> resp.body == []
    ensures body.Some? ==> resp.body == body.value
  {
    Response(status, JsonContentType, body.UnwrapOr([]))
  }

  /** A successful response. */
  datatype JsonResponse = JsonResponse(status: StatusCode, body: Option<Bytes>) {
    /** `into_response`: the status is kept and a missing body is sent empty. */
    function IntoResponse(): (resp: Response)
      ensures resp.status == status && resp.contentType == JsonContentType
      ensures body.None? ==> resp.body == []
      ensures body.Some? ==> resp.body == body.value
    {
      EmitJson(status, body)
    }
  }

  /** An error response. */
  datatype JsonErrorResponse = JsonErrorResponse(status: StatusCode, body: Option<Bytes>) {
    /** `into_response`: the status is kept and a missing body is sent empty. */
    function IntoResponse(): (resp: Response)
      ensures resp.status == status && resp.contentType == JsonContentType
      ensures body.None? ==> resp.body == []
      ensures body.Some? ==> resp.body == body.value
    {
      EmitJson(status, body)
    }
  }

  type JsonResult = Result<JsonResponse, JsonErrorResponse>

  /** The JSON object `{ "error": ... }` of an error response. */
  datatype JsonError = JsonError(error: string)

  /** `encode_with`: the serialised value with the given status, or a 500 with no body. */
  function EncodeWith<T>(val: T, status: StatusCode, toWriter: T -> Option<Bytes>): (r: JsonResult)
    ensures r.Ok? <==> toWriter(val).Some?
    ensures r.Ok? ==> r.value == JsonResponse(status, toWriter(val))
    ensures r.Err? ==> r.error == JsonErrorResponse(INTERNAL_SERVER_ERROR, None)
  {
    match toWriter(val)
    case Some(bytes) => Ok(JsonResponse(status, Some(bytes)))
    case None => Err(JsonErrorResponse(INTERNAL_SERVER_ERROR, None))
  }

  /** `encode`: every successful response carries 200 OK. */
  function Encode<T>(val: T, toWriter: T -> Option<Bytes>): (r: JsonResult)
    ensures r.Ok? ==> r.value.status == OK && r.value.body == toWriter(val)
    ensures r.Ok? <==> toWriter(val).Some?
    ensures r.Err? ==> r.error == JsonErrorResponse(INTERNAL_SERVER_ERROR, None)
  {
    EncodeWith(val, OK, toWriter)
  }

  /** `JsonErrorResponse::error`: the message as `{ "error": message }` with the given status. */
  function Error(status: StatusCode, message: string, toWriter: JsonError -> Option<Bytes>): (r: JsonErrorResponse)
    ensures toWriter(JsonError(message)).Some? ==> r == JsonErrorResponse(status, toWriter(JsonError(message)))
    ensures toWriter(JsonError(message)).None? ==> r == JsonErrorResponse(INTERNAL_SERVER_ERROR, None)
  {
    match toWriter(JsonError(message))
    case Some(bytes) => JsonErrorResponse(status, Some(bytes))
    case None => JsonErrorResponse(INTERNAL_SERVER_ERROR, None)
  }

  /** Input errors and conversion failures are the caller's (400); anything else is the server's (500). */
  function DieselStatus(err: DieselUsageCalculationError): (s: StatusCode)
    ensures s == BAD_REQUEST <==> err.InvalidParams? || err.CalculationFailed?
    ensures s == INTERNAL_SERVER_ERROR <==> err.Unimplemented?
  {
    match err
    case InvalidParams(_) => BAD_REQUEST
    case CalculationFailed => BAD_REQUEST
    case _ => INTERNAL_SERVER_ERROR
  }

  /** Input errors are the caller's (400); anything else is the server's (500). */
  function InjectorStatus(err: UnitInjectorFailCalculationError): (s: StatusCode)
    ensures s == BAD_REQUEST <==> err.InvalidParams?
    ensures s == INTERNAL_SERVER_ERROR <==> err.Unimplemented?
  {
    match err
    case InvalidParams(_) => BAD_REQUEST
    case _ => INTERNAL_SERVER_ERROR
  }

  /** `From<DieselUsageCalculationError>`: the error's message with its status. */
  function FromDieselError(err: DieselUsageCalculationError, toWriter: JsonError -> Option<Bytes>): (r: JsonErrorResponse)
    ensures toWriter(JsonError(err.ToString())).Some? ==>
      r.status == DieselStatus(err) && r.body == toWriter(JsonError(err.ToString()))
    ensures toWriter(JsonError(err.ToString())).None? ==> r == JsonErrorResponse(INTERNAL_SERVER_ERROR, None)
  {
    Error(DieselStatus(err), err.ToString(), toWriter)
  }

  /** `From<UnitInjectorFailCalculationError>`: the error's message with its status. */
  function FromInjectorError(err: UnitInjectorFailCalculationError, toWriter: JsonError -> Option<Bytes>): (r: JsonErrorResponse)
    ensures toWriter(JsonError(err.ToString())).Some? ==>
      r.status == InjectorStatus(err) && r.body == toWriter(JsonError(err.ToString()))
    ensures toWriter(JsonError(err.ToString())).None? ==> r == JsonErrorResponse(INTERNAL_SERVER_ERROR, None)
  {
    Error(InjectorStatus(err), err.ToString(), toWriter)
  }

  /** A serialiser that writes different objects as different bytes. */
  ghost predicate WritesInjectively(toWriter: JsonError -> Option<Bytes>) {
    forall x, y :: toWriter(x).Some? && toWriter(x) == toWriter(y) ==> x == y
  }

  /**
   * With a serialiser that succeeds and keeps objects apart, two diesel
   * errors that produce the same error response are the same error.
   */
  lemma DieselErrorResponseIdentifiesError(a: DieselUsageCalculationError, b: DieselUsageCalculationError, toWriter: JsonError -> Option<Bytes>)
    requires WritesInjectively(toWriter)
    requires toWriter(JsonError(a.ToString())).Some?
    ensures FromDieselError(a, toWriter) == FromDieselError(b, toWriter) ==> a == b
  {
  }

  /**
   * With a serialiser that succeeds and keeps objects apart, two injector
   * errors that produce the same error response are the same error.
   */
  lemma InjectorErrorResponseIdentifiesError(a: UnitInjectorFailCalculationError, b: UnitInjectorFailCalculationError, toWriter: JsonError -> Option<Bytes>)
    requires WritesInjectively(toWriter)
    requires toWriter(JsonError(a.ToString())).Some?
    ensures FromInjectorError(a, toWriter) == FromInjectorError(b, toWriter) ==> a == b
  {
  }
}
