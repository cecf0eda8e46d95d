/**
 * The request helpers of the API layer: where the username and token of an
 * API-key login come from, the fail-closed gate before `authenticate`, and
 * the requested language.
 */
module Http {
  import opened Common
  import opened PyValues

  /**
   * The parts of a Django request the helpers and the decorator read.
   * `params` is `request.REQUEST`; `verb` is `request.method`; `body` is `json.loads(request.raw_post_data)`,
   * `None` when reading or decoding the body raises; `sessionAuthenticated`
   * is `request.user.is_authenticated()`.
   */
  datatype Request = Request(
    verb: string,
    params: map<string, string>,
    cookies: map<string, string>,
    body: Option<Value>,
    languageCode: string,
    sessionAuthenticated: bool)

  /** `request.REQUEST.get(key)`. */
  function Param(req: Request, key: string): Value {
    if key in req.params then PStr(req.params[key]) else PNone
  }

  /** `v.get(key, default)`; `None` where `v` has no `get` and the call raises. */
  function DictGet(v: Value, key: string, default: Value): Option<Value> {
    match v
    case PDict(m) => Some(if key in m then m[key] else default)
    case _ => None
  }

  /** `data.get('data', {}).get('username')`, with any raise caught and leaving `None`. */
  function BodyUsername(body: Option<Value>): (u: Value)
    ensures u != PNone ==> body.Some? && At(body.value, ["data", "username"]) == Some(u)
    ensures u == (if body.Some? && At(body.value, ["data", "username"]).Some?
                  then At(body.value, ["data", "username"]).value else PNone)
  {
    match body
    case None => PNone
    case Some(data) =>
      match DictGet(data, "data", PDict(map[]))
      case None => PNone
      case Some(inner) =>
        match DictGet(inner, "username", PNone)
        case None => PNone
        case Some(u) => u
  }

  /** The username an API-key login uses: `username`, then `data[username]`, then the JSON body. */
  function RequestedUsername(req: Request): (u: Value)
    ensures "username" in req.params ==> u == PStr(req.params["username"])
    ensures "username" !in req.params && "data[username]" in req.params ==>
              u == PStr(req.params["data[username]"])
    ensures "username" !in req.params && "data[username]" !in req.params ==>
              u == BodyUsername(req.body)
  {
    var username := Param(req, "username");
    var username' := if username == PNone then Param(req, "data[username]") else username;
    if username' == PNone then BodyUsername(req.body) else username'
  }

  /** `request.COOKIES.get('token')`. */
  function TokenCookie(req: Request): Option<string> {
    if "token" in req.cookies then Some(req.cookies["token"]) else None
  }

  /**
   * What `check_api_key_authentication` did: its answer, the credentials it
   * passed to `authenticate` (none if it did not call it), and the user it
   * passed to `login` (none if it did not call it).
   */
  datatype ApiKeyOutcome<U> = ApiKeyOutcome(authorized: bool, credentials: Option<(Value, string)>, loggedIn: Option<U>)

  /** `check_api_key_authentication`, with `authenticate` as a parameter. */
  function CheckApiKeyAuthentication<U>(req: Request, authenticate: (Value, string) -> Option<U>): (r: ApiKeyOutcome<U>)
    ensures r.credentials.Some? <==>
              Truthy(RequestedUsername(req)) && TokenCookie(req).Some? && TokenCookie(req).value != ""
    ensures r.credentials.Some? ==>
              r.credentials.value == (RequestedUsername(req), TokenCookie(req).value)
    ensures r.authorized <==>
              r.credentials.Some? && authenticate(r.credentials.value.0, r.credentials.value.1).Some?
    ensures r.loggedIn.Some? <==> r.authorized
    ensures r.authorized ==> r.loggedIn == authenticate(r.credentials.value.0, r.credentials.value.1)
  {
    var token := TokenCookie(req);
    var username := RequestedUsername(req);
    if Truthy(username) && token.Some? && token.value != "" then
      var user := authenticate(username, token.value);
      if user.Some? then ApiKeyOutcome(true, Some((username, token.value)), user)
      else ApiKeyOutcome(false, Some((username, token.value)), None)
    else ApiKeyOutcome(false, None, None)
  }

  /** An empty `username` parameter ends the search, even with `data[username]` present, and fails. */
  lemma EmptyUsernameFails<U>(req: Request, authenticate: (Value, string) -> Option<U>)
    requires "username" in req.params && req.params["username"] == ""
    ensures RequestedUsername(req) == PStr("")
    ensures CheckApiKeyAuthentication(req, authenticate) == ApiKeyOutcome(false, None, None)
  {
  }

  /** With neither parameter and a body that fails to decode, there is no username and no call. */
  lemma UndecodableBodyFails<U>(req: Request, authenticate: (Value, string) -> Option<U>)
    requires "username" !in req.params && "data[username]" !in req.params
    requires req.body == None || !req.body.value.PDict?
    ensures RequestedUsername(req) == PNone
    ensures CheckApiKeyAuthentication(req, authenticate) == ApiKeyOutcome(false, None, None)
  {
  }

  /**
   * With neither parameter, a JSON body `{"data": {"username": name}}` supplies
   * the username, and a truthy name with a token cookie is passed to `authenticate`.
   */
  lemma BodyUsernameUsed<U>(req: Request, authenticate: (Value, string) -> Option<U>, name: Value, rest: map<string, Value>)
    requires "username" !in req.params && "data[username]" !in req.params
    requires req.body == Some(PDict(rest["data" := PDict(map["username" := name])]))
    ensures RequestedUsername(req) == name
    ensures Truthy(name) && TokenCookie(req).Some? && TokenCookie(req).value != "" ==>
              CheckApiKeyAuthentication(req, authenticate).credentials == Some((name, TokenCookie(req).value))
  {
    var inner := map["username" := name];
    assert At(PDict(inner), ["username"]) == Some(name) by {
      assert ["username"][1..] == [];
    }
    assert ["data", "username"][1..] == ["username"];
  }

  /** `requested_language`: the `lang` parameter, or `None`. */
  function RequestedLanguage(req: Request): (lang: Option<string>)
    ensures lang.Some? <==> "lang" in req.params
    ensures lang.Some? ==> lang.value == req.params["lang"]
  {
    if "lang" in req.params then Some(req.params["lang"]) else None
  }
}
