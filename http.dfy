/** What the React client sends and receives through its axios instance, and
    the instance's response interceptor (frontend/src/services/api.js). */
module Http {
  import opened Json

  /** A request the client sends; paths are relative to the API base URL. */
  datatype Request =
    | GetReq(path: string)
    | PostReq(path: string, body: Value)
    | PutReq(path: string, body: Value)
    | DeleteReq(path: string)

  /** How an awaited axios call settles: `Ok` carries `res.data`, `Failed`
      carries the rejection value `err` (an axios error has a `response`
      object with `status` and `data` when the server answered). */
  datatype Reply = Ok(data: Value) | Failed(err: Value)

  /** `err?.response?.data` */
  function ResponseData(err: Value): Value {
    Prop(Prop(err, "response"), "data")
  }

  /** `err?.response?.status` */
  function ResponseStatus(err: Value): Value {
    Prop(Prop(err, "response"), "status")
  }

  /** `err?.response?.data?.error || err?.response?.data?.message || fallback`:
      the server's `error` text wins, then its `message`, then the page's own
      text; whatever is chosen is truthy, so the error banner always shows. */
  function ErrorText(err: Value, fallback: string): (r: Value)
    ensures JsTruthy(Prop(ResponseData(err), "error")) ==> r == Prop(ResponseData(err), "error")
    ensures !JsTruthy(Prop(ResponseData(err), "error")) && JsTruthy(Prop(ResponseData(err), "message")) ==>
      r == Prop(ResponseData(err), "message")
    ensures !JsTruthy(Prop(ResponseData(err), "error")) && !JsTruthy(Prop(ResponseData(err), "message")) ==>
      r == Str(fallback)
    ensures fallback != "" ==> JsTruthy(r)
  {
    JsOr(JsOr(Prop(ResponseData(err), "error"), Prop(ResponseData(err), "message")), Str(fallback))
  }

  /** The failure text of a server answer in the shape the Flask API gives
      (`{"error": msg}`), as a page using ErrorText shows it. */
  lemma ErrorTextShowsServerError(msg: string, status: int, fallback: string)
    requires msg != ""
    ensures ErrorText(Object(map["response" := Object(map["status" := Int(status),
                                  "data" := Object(map["error" := Str(msg)])])]), fallback)
         == Str(msg)
  {
  }

  /** A rejection that carries no server answer (a network failure) shows the
      page's own text. */
  lemma ErrorTextWithoutResponse(err: Value, fallback: string)
    requires !Prop(err, "response").Object?
    ensures ErrorText(err, fallback) == Str(fallback)
  {
  }

  // ---------------------------------------------------------------------------
  // The response interceptor

  /** The browser state the interceptor touches: localStorage, the current
      path, and the pages it sent the browser to by assigning `location.href`. */
  datatype BrowserState = BrowserState(storage: map<string, string>, path: string, redirects: seq<string>)

  /** The interceptor's effect on the browser for one settled reply. */
  function InterceptStep(b: BrowserState, reply: Reply): (b': BrowserState)
    ensures b'.path == b.path
    ensures (reply.Ok? || ResponseStatus(reply.err) != Int(401)) ==> b' == b
    ensures reply.Failed? && ResponseStatus(reply.err) == Int(401) ==>
      && b'.storage == b.storage - {"token"}
      && "token" !in b'.storage
      && (forall k :: k in b.storage && k != "token" ==> k in b'.storage && b'.storage[k] == b.storage[k])
      && (b.path != "/login" ==> b'.redirects == b.redirects + ["/login"])
      && (b.path == "/login" ==> b'.redirects == b.redirects)
  {
    match reply
    case Ok(_) => b
    case Failed(err) =>
      if ResponseStatus(err) == Int(401) then
        var storage := b.storage - {"token"};
        if b.path != "/login" then BrowserState(storage, b.path, b.redirects + ["/login"])
        else BrowserState(storage, b.path, b.redirects)
      else b
  }

  /** On the login page, handling the same reply twice is handling it once:
      the token is already gone and no redirect is issued. */
  lemma InterceptIdempotentAtLogin(b: BrowserState, reply: Reply)
    requires b.path == "/login"
    ensures InterceptStep(InterceptStep(b, reply), reply) == InterceptStep(b, reply)
  {
  }

  /** The axios instance's browser-side state, updated by its interceptor. */
  class Browser {
    var storage: map<string, string>
    var path: string
    var redirects: seq<string>

    function State(): BrowserState
      reads this
    {
      BrowserState(storage, path, redirects)
    }

    constructor(storage: map<string, string>, path: string)
      ensures State() == BrowserState(storage, path, [])
    {
      this.storage := storage;
      this.path := path;
      this.redirects := [];
    }

    /** Runs the interceptor on a settled reply: a success is passed on as it
        is (`(res) => res`); a rejection is re-rejected with the same error
        after the 401 handling. */
    method Intercept(reply: Reply) returns (passed: Reply)
      modifies this
      ensures passed == reply
      ensures State() == InterceptStep(old(State()), reply)
    {
      passed := reply;
      if reply.Failed? && ResponseStatus(reply.err) == Int(401) {
        storage := storage - {"token"};
        if path != "/login" {
          redirects := redirects + ["/login"];
        }
      }
    }
  }
}
