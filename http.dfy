/** What the venue clients see of the HTTP gateway: decoded JSON values, raw
    responses, the exceptions they raise, and the status tests they apply.
    Transport, authentication and JSON decoding are not modelled; a response
    arrives already decoded into a datatype. */
module Http {
  import opened Text

  /** A decoded JSON value, also used for request bodies and order-history records. */
  datatype Json =
    | JNull
    | JBool(b: bool)
    | JNum(n: real)
    | JStr(s: string)
    | JList(items: seq<Json>)
    | JObject(fields: map<string, Json>)

  /** The exceptions the clients raise or catch. */
  datatype Error =
    | RequestException(message: string)   // the package's own exception for a refused request
    | ApiException(status: int)           // the package's own exception wrapping a non-2xx response
    | TimeoutError                        // `asyncio.wait_for` gave up
    | KeyError(key: string)               // a missing dictionary key
    | IndexError                          // an index past the end of a list
    | TypeError                           // an operator applied to incompatible operands
    | ValueError(message: string)         // an operation on a closed file
    | NotImplementedError
    | Exception(message: string)          // a bare `Exception(...)`

  /** A response as the gateway hands it over: the status code, the decoded body,
      and the body's text as it appears inside an error message. */
  datatype HttpResponse<T> = HttpResponse(status: int, json: T, text: string)

  /** `str(status).startswith('2')`, the success test every client uses. */
  predicate IsSuccessStatus(status: int) {
    StartsWith(IntToString(status), "2")
  }

  /** `str(status).startswith('4')`. */
  predicate IsClientErrorStatus(status: int) {
    StartsWith(IntToString(status), "4")
  }

  /** On real HTTP status codes the textual test is the usual range test. */
  lemma SuccessStatusRange(status: int)
    requires 100 <= status <= 999
    ensures IsSuccessStatus(status) <==> 200 <= status <= 299
    ensures IsClientErrorStatus(status) <==> 400 <= status <= 499
  {
    assert "2" == [Digit(2)];
    assert "4" == [Digit(4)];
    LeadingDigit(status, 2);
    LeadingDigit(status, 4);
  }
}
