/** The HTTP status codes Envoy's `type.v3.StatusCode` enumeration names.
    A decision may only ask for one of these; the enumeration is a named subset
    of the standard HTTP codes, not the whole 100-599 range. */
module StatusCodes {

  const BadRequest: int := 400
  const Forbidden: int := 403

  /** 1xx codes the enumeration lists. */
  const Informational: set<int> := {
    100
  }

  /** 2xx codes the enumeration lists. */
  const Successful: set<int> := {
    200, 201, 202, 203, 204, 205, 206, 207, 208, 226
  }

  /** 3xx codes the enumeration lists. */
  const Redirection: set<int> := {
    300, 301, 302, 303, 304, 305, 307, 308
  }

  /** 4xx codes the enumeration lists. */
  const ClientErrors: set<int> := {
    400, 401, 402, 403, 404, 405, 406, 407, 408, 409,
    410, 411, 412, 413, 414, 415, 416, 417, 421, 422,
    423, 424, 426, 428, 429, 431
  }

  /** 5xx codes the enumeration lists. */
  const ServerErrors: set<int> := {
    500, 501, 502, 503, 504, 505, 506, 507, 508, 510,
    511
  }

  /** The codes the enumeration lists, value by value. */
  const EnumeratedCodes: set<int> := Informational + Successful + Redirection + ClientErrors + ServerErrors

  /** The same codes as ranges, class by class. */
  predicate InformationalRange(code: int) {
    code == 100
  }

  predicate SuccessfulRange(code: int) {
    (200 <= code <= 208) || code == 226
  }

  predicate RedirectionRange(code: int) {
    300 <= code <= 308 && code != 306
  }

  predicate ClientErrorsRange(code: int) {
    (400 <= code <= 417) || (421 <= code <= 424)
    || code == 426 || code == 428 || code == 429 || code == 431
  }

  predicate ServerErrorsRange(code: int) {
    (500 <= code <= 508) || code == 510 || code == 511
  }

  lemma InformationalAsRange(code: int)
    ensures code in Informational <==> InformationalRange(code)
  {
  }

  lemma SuccessfulAsRange(code: int)
    ensures code in Successful <==> SuccessfulRange(code)
  {
    if 200 <= code <= 208 {
      assert code == 200 || code == 201 || code == 202 || code == 203 || code == 204 || code == 205 || code == 206 || code == 207 || code == 208;
    }
  }

  lemma RedirectionAsRange(code: int)
    ensures code in Redirection <==> RedirectionRange(code)
  {
    if 300 <= code <= 308 && code != 306 {
      assert code == 300 || code == 301 || code == 302 || code == 303 || code == 304 || code == 305 || code == 307 || code == 308;
    }
  }

  lemma ClientErrorsAsRange(code: int)
    ensures code in ClientErrors <==> ClientErrorsRange(code)
  {
    if 400 <= code <= 417 {
      assert code == 400 || code == 401 || code == 402 || code == 403 || code == 404 || code == 405 || code == 406 || code == 407 || code == 408 || code == 409 || code == 410 || code == 411 || code == 412 || code == 413 || code == 414 || code == 415 || code == 416 || code == 417;
    }
    if 421 <= code <= 424 {
      assert code == 421 || code == 422 || code == 423 || code == 424;
    }
  }

  lemma ServerErrorsAsRange(code: int)
    ensures code in ServerErrors <==> ServerErrorsRange(code)
  {
    if 500 <= code <= 508 {
      assert code == 500 || code == 501 || code == 502 || code == 503 || code == 504 || code == 505 || code == 506 || code == 507 || code == 508;
    }
  }

  /** A decision's status is accepted iff it is one of the codes 100; 200-208
      and 226; 300-308 except the unused 306; 400-417, 421-424, 426, 428, 429
      and 431; 500-508, 510 and 511. */
  predicate IsRecognizedStatus(code: int)
    ensures IsRecognizedStatus(code) ==> 100 <= code <= 511
  {
    || InformationalRange(code) || SuccessfulRange(code) || RedirectionRange(code)
    || ClientErrorsRange(code) || ServerErrorsRange(code)
  }

  /** The ranges are exactly the codes the enumeration lists, class by class. */
  lemma EnumeratedAsRanges(code: int)
    ensures code in EnumeratedCodes <==> IsRecognizedStatus(code)
  {
    InformationalAsRange(code);
    SuccessfulAsRange(code);
    RedirectionAsRange(code);
    ClientErrorsAsRange(code);
    ServerErrorsAsRange(code);
  }

  /** The enumeration names both the default and the bad-request code, and
      neither 1 nor 9999. */
  lemma TestedStatusCodes()
    ensures IsRecognizedStatus(Forbidden) && IsRecognizedStatus(BadRequest)
    ensures !IsRecognizedStatus(1) && !IsRecognizedStatus(9999)
  {
  }

  /** The status record sent back to Envoy. */
  datatype HttpStatus = HttpStatus(code: int)
}
