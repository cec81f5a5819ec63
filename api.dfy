/**
 * The API object's session-token bookkeeping and the completion block it
 * wraps around every request: the response it builds and how that
 * response's error is classified.
 */
module Api {
  import opened Wrappers
  import opened Coding

  /** The request handler's state that the API object writes. */
  class RequestHandler {
    var authToken: Option<string>

    constructor()
      ensures authToken == None
    {
      authToken := None;
    }
  }

  /** The API object: its request handler and the two session tokens. */
  class ApiClient {
    const requestHandler: RequestHandler
    var sessionJwt: Option<string>
    var refreshJwt: Option<string>

    /** The handler always authenticates with the current session token. */
    ghost predicate Valid()
      reads this, requestHandler
    {
      requestHandler.authToken == sessionJwt
    }

    constructor()
      ensures Valid() && fresh(requestHandler)
      ensures sessionJwt == None && refreshJwt == None
    {
      requestHandler := new RequestHandler();
      sessionJwt := None;
      refreshJwt := None;
    }

    /** Assigning `sessionJwt`; its `didSet` observer copies the value into the handler. */
    method SetSessionJwt(token: Option<string>)
      modifies this, requestHandler
      ensures sessionJwt == token && requestHandler.authToken == token
      ensures refreshJwt == old(refreshJwt)
      ensures Valid()
    {
      sessionJwt := token;
      requestHandler.authToken := sessionJwt;
    }

    /** Assigning `refreshJwt`, which has no observer: the handler is untouched. */
    method SetRefreshJwt(token: Option<string>)
      modifies this
      ensures refreshJwt == token && sessionJwt == old(sessionJwt)
      ensures requestHandler.authToken == old(requestHandler.authToken)
      ensures old(Valid()) ==> Valid()
    {
      refreshJwt := token;
    }
  }

  /** The kind of an API error; `OtherKind` stands for kinds this model does not produce. */
  datatype ErrorKind = CaptchaRequired | WrongStatusCode | OtherKind(name: string)

  /** The error a transport layer reports underneath an API error. */
  datatype UnderlyingError = UnderlyingError(description: string)

  datatype ApiError = ApiError(kind: ErrorKind, body: Option<string>, underlying: Option<UnderlyingError>)

  /** The response handed to the caller; only its error is ever reassigned. */
  class Response {
    const url: Url
    const content: Option<string>
    const status: Option<int>
    var error: Option<ApiError>

    constructor(url: Url, content: Option<string>, error: Option<ApiError>, status: Option<int>)
      ensures this.url == url && this.content == content && this.error == error && this.status == status
    {
      this.url := url;
      this.content := content;
      this.error := error;
      this.status := status;
    }
  }

  /** The caller's completion block, recording each response it is called with. */
  class Completion {
    var received: seq<Response>

    constructor()
      ensures received == []
    {
      received := [];
    }

    method Call(response: Response)
      modifies this
      ensures received == old(received) + [response]
    {
      received := received + [response];
    }
  }

  const CaptchaMarker := "captcha_required_exception"

  /** `marker` occurs in `s` starting at index `i`. */
  predicate OccursAt(s: string, marker: string, i: nat) {
    i + |marker| <= |s| && s[i..i + |marker|] == marker
  }

  lemma OccursAtShift(s: string, marker: string, i: nat)
    requires |s| > 0
    ensures OccursAt(s[1..], marker, i) <==> OccursAt(s, marker, i + 1)
  {
  }

  /** `s.contains(marker)`: some position of `s` starts a copy of `marker`. */
  function Contains(s: string, marker: string): (r: bool)
    ensures r <==> exists i: nat :: i <= |s| && OccursAt(s, marker, i)
    decreases |s|
  {
    if |s| < |marker| then false
    else if s[..|marker|] == marker then (assert OccursAt(s, marker, 0); true)
    else if |s| == 0 then false
    else
      var rest := Contains(s[1..], marker);
      assert rest ==> exists i: nat :: i <= |s| && OccursAt(s, marker, i) by {
        if rest {
          var i: nat :| i <= |s[1..]| && OccursAt(s[1..], marker, i);
          OccursAtShift(s, marker, i);
        }
      }
      assert (exists i: nat :: i <= |s| && OccursAt(s, marker, i)) ==> rest by {
        if exists i: nat :: i <= |s| && OccursAt(s, marker, i) {
          var i: nat :| i <= |s| && OccursAt(s, marker, i);
          assert i != 0;
          OccursAtShift(s, marker, i - 1);
        }
      }
      rest
  }

  /** The underlying error carried over from the transport error, if any. */
  function UnderlyingOf(transport: Option<ApiError>): Option<UnderlyingError> {
    if transport.Some? then transport.value.underlying else None
  }

  /** A 403 whose body mentions the captcha exception. */
  predicate IsCaptcha(status: Option<int>, content: Option<string>) {
    status == Some(403) && content.Some? && Contains(content.value, CaptchaMarker)
  }

  /** A status outside the accepted range 200..<400. */
  predicate IsWrongStatus(status: Option<int>) {
    status.Some? && !(200 <= status.value < 400)
  }

  /** The first classification step: a captcha 403 is marked as such. */
  function CaptchaStep(status: Option<int>, content: Option<string>, transport: Option<ApiError>,
                       current: Option<ApiError>): Option<ApiError>
  {
    if IsCaptcha(status, content) then Some(ApiError(CaptchaRequired, content, UnderlyingOf(transport)))
    else current
  }

  /** The second classification step: a status outside 200..<400 is a wrong status code. */
  function StatusStep(status: Option<int>, content: Option<string>, transport: Option<ApiError>,
                      current: Option<ApiError>): Option<ApiError>
  {
    if IsWrongStatus(status) then Some(ApiError(WrongStatusCode, content, UnderlyingOf(transport)))
    else current
  }

  /**
   * The error the completion block leaves on the response: the two steps in
   * sequence, starting from the transport error. The second step decides
   * whenever the first fired, so the captcha kind never survives.
   */
  function ResponseError(status: Option<int>, content: Option<string>, transport: Option<ApiError>): (r: Option<ApiError>)
    ensures status.None? ==> r == transport
    ensures status.Some? && 200 <= status.value < 400 ==> r == transport
    ensures status.Some? && !(200 <= status.value < 400) ==>
      r == Some(ApiError(WrongStatusCode, content, UnderlyingOf(transport)))
    ensures r.Some? && r.value.kind == CaptchaRequired ==> r == transport
  {
    StatusStep(status, content, transport, CaptchaStep(status, content, transport, transport))
  }

  /** A captcha 403 is first marked captcha-required, and then always overwritten as a wrong status code. */
  lemma CaptchaIsOverwritten(content: string, transport: Option<ApiError>)
    requires Contains(content, CaptchaMarker)
    ensures CaptchaStep(Some(403), Some(content), transport, transport).value.kind == CaptchaRequired
    ensures ResponseError(Some(403), Some(content), transport) ==
      Some(ApiError(WrongStatusCode, Some(content), UnderlyingOf(transport)))
  {
  }

  /**
   * The block `requestCompletionBlock(url:completion:)` returns, run once the
   * request finishes: it builds the response from the url, the body, the
   * transport error and the HTTP status, classifies its error in two steps,
   * and calls the caller's completion with it exactly once.
   */
  method RequestCompleted(url: Url, completion: Completion,
                          status: Option<int>, content: Option<string>, transport: Option<ApiError>)
    returns (response: Response)
    modifies completion
    ensures fresh(response)
    ensures response.url == url && response.content == content && response.status == status
    ensures response.error == ResponseError(status, content, transport)
    ensures completion.received == old(completion.received) + [response]
  {
    response := new Response(url, content, transport, status);
    if status.Some? && status.value == 403 && content.Some? && Contains(content.value, CaptchaMarker) {
      response.error := Some(ApiError(CaptchaRequired, content, UnderlyingOf(transport)));
    }
    if status.Some? && !(200 <= status.value < 400) {
      response.error := Some(ApiError(WrongStatusCode, content, UnderlyingOf(transport)));
    }
    completion.Call(response);
  }
}
