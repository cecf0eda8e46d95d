/**
 * The view decorators: `gluten_api`'s gate (method, language, API key,
 * session, login) before the wrapped view runs, and `html_decorator`.
 */
module Decorators {
  import opened Common
  import opened PyValues
  import opened Http

  /** The `methods` default of `gluten_api`. */
  const DefaultMethods: seq<string> := ["GET", "POST", "PUT", "DELETE"]

  /** `activate_language`: the language switched to, if any. */
  function ActivateLanguage(language: string, allowed: set<string>): (r: Option<string>)
    ensures r.Some? <==> language in allowed
    ensures r.Some? ==> r.value == language
  {
    if language in allowed then Some(language) else None
  }

  /** The language `inner` activates for a request. */
  function LanguageToActivate(req: Request, allowed: set<string>): (r: Option<string>)
    ensures r.Some? <==>
              && RequestedLanguage(req).Some?
              && RequestedLanguage(req).value != req.languageCode
              && RequestedLanguage(req).value in allowed
    ensures r.Some? ==> r == RequestedLanguage(req)
  {
    var language := RequestedLanguage(req);
    if language.Some? && language.value != req.languageCode then ActivateLanguage(language.value, allowed)
    else None
  }

  /** What `inner` returns: 405 with the allowed methods, a bare status, or the view's own response. */
  datatype Response<R> = NotAllowed(permitted: seq<string>) | Status(code: int) | Called(result: R)

  /**
   * One run of `inner`: its response, the language it activated, what the
   * API-key check did (none if it was not reached) and whether the session
   * was consulted.
   */
  datatype Outcome<R, U> = Outcome(
    response: Response<R>,
    activated: Option<string>,
    apiKey: Option<ApiKeyOutcome<U>>,
    sessionConsulted: bool)

  /** `gluten_api(methods, login_required)(func)` applied to `req`. */
  function GlutenApi<R, U>(
    req: Request,
    func: Request -> R,
    authenticate: (Value, string) -> Option<U>,
    allowedLanguages: set<string>,
    methods: seq<string> := DefaultMethods,
    loginRequired: bool := true): (o: Outcome<R, U>)
    ensures req.verb !in methods ==> o == Outcome(NotAllowed(methods), None, None, false)
    ensures req.verb in methods ==>
              && o.activated == LanguageToActivate(req, allowedLanguages)
              && o.apiKey == Some(CheckApiKeyAuthentication(req, authenticate))
    ensures o.sessionConsulted <==>
              req.verb in methods && !CheckApiKeyAuthentication(req, authenticate).authorized
    ensures o.response == Status(401) <==>
              && req.verb in methods
              && loginRequired
              && !CheckApiKeyAuthentication(req, authenticate).authorized
              && !req.sessionAuthenticated
    ensures o.response.Called? <==>
              && req.verb in methods
              && (!loginRequired || CheckApiKeyAuthentication(req, authenticate).authorized || req.sessionAuthenticated)
    ensures o.response.Called? ==> o.response.result == func(req)
  {
    if req.verb !in methods then
      Outcome(NotAllowed(methods), None, None, false)
    else
      var language := LanguageToActivate(req, allowedLanguages);
      var apiKey := CheckApiKeyAuthentication(req, authenticate);
      var authorized := apiKey.authorized;
      var sessionConsulted := !authorized;
      var authorized' := if !authorized then req.sessionAuthenticated else authorized;
      if loginRequired && !authorized' then
        Outcome(Status(401), language, Some(apiKey), sessionConsulted)
      else
        Outcome(Called(func(req)), language, Some(apiKey), sessionConsulted)
  }

  /** With the defaults, a PATCH is refused with 405 listing GET, POST, PUT and DELETE. */
  lemma DefaultsRefusePatch<R, U>(req: Request, func: Request -> R, authenticate: (Value, string) -> Option<U>,
                                  allowedLanguages: set<string>)
    requires req.verb == "PATCH"
    ensures GlutenApi(req, func, authenticate, allowedLanguages).response
         == NotAllowed(["GET", "POST", "PUT", "DELETE"])
  {
  }

  /** The response of a view: its status and its content. */
  datatype HttpResponse = HttpResponse(status: int, content: string)

  const HtmlOpen := "<html><body>"
  const HtmlClose := "</body></html>"

  /** `html_decorator(func)(args)`: a new 200 response whose content is the view's, wrapped in html and body tags. */
  function HtmlDecorator<A>(func: A -> HttpResponse, args: A): (r: HttpResponse)
    ensures r.status == 200
    ensures |r.content| == |HtmlOpen| + |func(args).content| + |HtmlClose|
    ensures r.content[..|HtmlOpen|] == HtmlOpen
    ensures r.content[|HtmlOpen|..|r.content| - |HtmlClose|] == func(args).content
    ensures r.content[|r.content| - |HtmlClose|..] == HtmlClose
  {
    var response := func(args);
    var wrapped := [HtmlOpen, response.content, HtmlClose];
    HttpResponse(200, wrapped[0] + wrapped[1] + wrapped[2])
  }
}
