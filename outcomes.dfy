/**
 * Optional values and the HTTP error results that the FastAPI routers raise
 * as `HTTPException(status_code, detail)`.
 */
module Outcomes {

  datatype Option<+T> = None | Some(value: T)

  /** An `HTTPException`: a status code and the detail message. */
  datatype HttpError = HttpError(statusCode: nat, detail: string)

  /** A handler either answers with a value or raises an `HTTPException`. */
  datatype Result<+T> = Ok(value: T) | Err(error: HttpError)

  const BadRequest: nat := 400
  const InternalServerError: nat := 500

  /** The decimal digits of `n`. */
  function NatString(n: nat): (s: string)
    ensures |s| > 0
    ensures forall i :: 0 <= i < |s| ==> '0' <= s[i] <= '9'
  {
    if n < 10 then ["0123456789"[n]] else NatString(n / 10) + ["0123456789"[n % 10]]
  }

  /** The two status codes the routers raise print as "400" and "500". */
  lemma StatusCodeTexts()
    ensures NatString(BadRequest) == "400"
    ensures NatString(InternalServerError) == "500"
  {
    assert NatString(4) == "4" && NatString(40) == "40";
    assert NatString(5) == "5" && NatString(50) == "50";
  }

  /** `str(e)` of an `HTTPException`: its status code, a colon and its detail. */
  function Describe(e: HttpError): string
  {
    NatString(e.statusCode) + ": " + e.detail
  }

  /**
   * `except Exception as e: raise HTTPException(500, prefix + str(e))`: a
   * handler's catch-all turns every failure inside its `try` block, its own
   * `HTTPException`s included, into a 500.
   */
  function WrapFailure<T>(prefix: string, r: Result<T>): (w: Result<T>)
    ensures w.Ok? <==> r.Ok?
    ensures r.Ok? ==> w == r
    ensures r.Err? ==> w.error.statusCode == InternalServerError
    ensures r.Err? ==> w.error == HttpError(InternalServerError, prefix + Describe(r.error))
  {
    match r
    case Ok(_) => r
    case Err(e) => Err(HttpError(InternalServerError, prefix + Describe(e)))
  }
}
