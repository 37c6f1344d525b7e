/**
 * The framework-facing handlers: the error-adapting wrapper around a domain
 * handler, the sub-router mount, and the router with a not-found fallback.
 */
module Handlers {
  import opened Wrappers
  import opened Http
  import opened Errors

  /** What a handler sees of a request. */
  datatype RequestView = RequestView(
    httpMethod: string,
    path: string,
    query: string,
    headers: map<string, seq<string>>)

  /**
   * The request, as far as these handlers touch it: its line and headers, the
   * route parameters stored in its extensions, and how often its commit hook ran.
   */
  class Request {
    var httpMethod: string
    var path: string
    var query: string
    var headers: map<string, seq<string>>
    /** The route parameters a router stored in the request's extensions, if any. */
    var params: Option<map<string, string>>
    /** How many times the commit hook has run. */
    var commits: nat

    constructor (httpMethod: string, path: string, query: string, headers: map<string, seq<string>>)
      ensures this.httpMethod == httpMethod && this.path == path && this.query == query
      ensures this.headers == headers && params == None && commits == 0
    {
      this.httpMethod := httpMethod;
      this.path := path;
      this.query := query;
      this.headers := headers;
      params := None;
      commits := 0;
    }

    function View(): RequestView
      reads this
    {
      RequestView(httpMethod, path, query, headers)
    }

    /** `commit`: signal that the request completed successfully. */
    method Commit()
      modifies this
      ensures commits == old(commits) + 1
      ensures View() == old(View()) && params == old(params)
    {
      commits := commits + 1;
    }
  }

  /**
   * `C::call`. `outcome` is what the wrapped domain handler returned for `req`.
   * Success commits and passes the response on; a failure never commits, and
   * answers with the error's pre-rendered response or escalates it as fatal.
   */
  method AdaptErrors(req: Request, outcome: Result<Response, DomainError>) returns (r: Result<Response, Fatal>)
    modifies req
    ensures req.View() == old(req.View()) && req.params == old(req.params)
    ensures outcome.Ok? ==> r == Ok(outcome.value) && req.commits == old(req.commits) + 1
    ensures outcome.Err? ==> req.commits == old(req.commits)
    ensures outcome.Err? && outcome.error.Human? && outcome.error.response.Some? ==>
              r == Ok(outcome.error.response.value)
    ensures outcome.Err? && (outcome.error.Internal? || outcome.error.response.None?) ==>
              r == Err(Fatal(outcome.error))
  {
    match outcome
    case Ok(resp) =>
      req.Commit();
      r := Ok(resp);
    case Err(e) =>
      match RenderedResponse(e)
      case Some(response) =>
        r := Ok(response);
      case None =>
        r := Err(Fatal(e));
  }

  /**
   * One call of the error-adapting handler on a fresh request: the commit hook
   * runs once when the domain handler succeeds and never otherwise, and the
   * answer is fatal only for an error without a pre-rendered response.
   */
  method CommitsPerCall(outcome: Result<Response, DomainError>) returns (commits: nat, fatal: bool)
    ensures commits == (if outcome.Ok? then 1 else 0)
    ensures fatal <==> outcome.Err? && RenderedResponse(outcome.error).None?
  {
    var req := new Request("GET", "/", "", map[]);
    var r := AdaptErrors(req, outcome);
    commits := req.commits;
    fatal := r.Err?;
  }

  /**
   * `R::call`: the request the mounted handler sees, `None` when no route
   * parameter `path` was captured (the source panics there). The mounted
   * handler sees the captured path and everything else as it is, method included.
   */
  function MountedView(req: Request): (v: Option<RequestView>)
    reads req
    ensures v.Some? <==> req.params.Some? && "path" in req.params.value
    ensures v.Some? ==> v.value == req.View().(path := req.params.value["path"])
    ensures v.Some? ==> v.value.httpMethod == req.httpMethod && v.value.headers == req.headers
  {
    if req.params.Some? && "path" in req.params.value then
      Some(RequestView(req.httpMethod, req.params.value["path"], req.query, req.headers))
    else
      None
  }

  /** A route the router recognised: its parameters and what its handler answers. */
  datatype RouteMatch = RouteMatch(params: map<string, string>, answer: Result<Response, Fatal>)

  /**
   * `R404::call`. `recognize` is the router's lookup by method and path and
   * `notFound` the fixed not-found response. A match stores its parameters in
   * the request (replacing any stored before) and delegates; no match answers
   * `notFound` and leaves the request alone. The matched handler's answer is
   * given with the match, so the request state stated here is the one the
   * matched handler starts from; what that handler then does to the request
   * is not modelled.
   */
  method Fallback(req: Request, recognize: (string, string) -> Option<RouteMatch>, notFound: Response)
    returns (r: Result<Response, Fatal>)
    modifies req
    ensures req.View() == old(req.View()) && req.commits == old(req.commits)
    ensures var m := recognize(old(req.httpMethod), old(req.path));
            && (m.None? ==> r == Ok(notFound) && req.params == old(req.params))
            && (m.Some? ==> r == m.value.answer && req.params == Some(m.value.params))
  {
    match recognize(req.httpMethod, req.path)
    case Some(m) =>
      req.params := Some(m.params);
      r := m.answer;
    case None =>
      r := Ok(notFound);
  }
}
