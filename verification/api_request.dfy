/** `Session.send_api_request`: choose the URL and timeout, merge the
    facade's default arguments with the call's coerced arguments, and attach
    the access token when the getter yields a usable one. The HTTP send
    itself is left to the caller of this module. */
module ApiRequest {
  import opened Wrappers
  import opened Json
  import opened Session
  import opened Builder

  /** `Session.API_URL`. */
  const ApiUrl: string := "https://api.vk.com/method/"

  /** The name under which the token is sent. */
  const TokenKey: string := "access_token"

  /** What is handed to the HTTP layer: URL, timeout and form arguments. */
  datatype Payload = Payload(url: string, timeout: Timeout, args: map<string, Json>)

  /** How `stringify_values` turns one argument value into a string. Its
      policy is not part of this model; only that it maps values one by one
      and keeps the keys. */
  type Coerce = Json -> string

  /** `stringify_values` applied to the call's arguments. */
  function StringifyValues(args: map<string, Json>, coerce: Coerce): (r: map<string, Json>)
    ensures r.Keys == args.Keys
  {
    map k | k in args :: JStr(coerce(args[k]))
  }

  /** How a Python value the getter returned looks once put in the form. */
  function TokenValue(t: Option<string>): Json {
    match t
    case Some(s) => JStr(s)
    case None => JNull
  }

  /** The payload together with the session and provider-call count after
      the token has been read. */
  datatype Prepared = Prepared(payload: Payload, session: SessionState, calls: nat)

  /** `send_api_request` up to the send. The getter runs once for the
      test and, when that yields a usable token, once more for the value. */
  function SendApiRequest(s: SessionState, c: Call, p: Provider, calls: nat, coerce: Coerce): (r: Prepared)
    // URL and timeout follow the raw flag.
    ensures !c.request.raw ==> r.payload.url == ApiUrl + c.request.name
    ensures !c.request.raw ==> r.payload.timeout == c.request.api.timeout
    ensures c.request.raw ==> r.payload.url == c.request.name
    ensures c.request.raw ==> r.payload.timeout == c.request.timeout
    // The token sent is the one the session holds afterwards; the provider is asked at most once.
    ensures r.calls == (if s.tokenNeeded then calls + 1 else calls)
    ensures r.session == ReadToken(s, p, calls).session
    // Exactly the default keys, the call's keys, and the token key when a usable token is held.
    ensures r.payload.args.Keys ==
              c.request.api.defaults.Keys + c.args.Keys + (if Truthy(r.session.token) then {TokenKey} else {})
    ensures Truthy(r.session.token) ==> r.payload.args[TokenKey] == JStr(r.session.token.value)
    ensures forall k :: k in r.payload.args && !(k == TokenKey && Truthy(r.session.token)) ==>
              r.payload.args[k] == (if k in c.args then JStr(coerce(c.args[k])) else c.request.api.defaults[k])
  {
    var req := c.request;
    var url := if !req.raw then ApiUrl + req.name else req.name;
    var timeout := if !req.raw then req.api.timeout else req.timeout;
    var methodArgs := req.api.defaults + StringifyValues(c.args, coerce);
    var first := ReadToken(s, p, calls);
    if Truthy(first.value) then
      SecondReadIsFree(s, p, calls);
      var second := ReadToken(first.session, p, first.calls);
      Prepared(Payload(url, timeout, methodArgs[TokenKey := TokenValue(second.value)]), second.session, second.calls)
    else
      Prepared(Payload(url, timeout, methodArgs), first.session, first.calls)
  }

  /** A caller-supplied `access_token` is overridden by a usable session
      token, and is sent as given (coerced) otherwise. */
  lemma SessionTokenWins(s: SessionState, c: Call, p: Provider, calls: nat, coerce: Coerce)
    requires TokenKey in c.args
    ensures var r := SendApiRequest(s, c, p, calls, coerce);
            r.payload.args[TokenKey] ==
              (if Truthy(r.session.token) then JStr(r.session.token.value) else JStr(coerce(c.args[TokenKey])))
  {
  }

  /** A freshly built session without a token asks no provider and sends no
      token: the constructor leaves the "token is needed" flag clear. */
  lemma FreshSessionSendsNoToken(c: Call, p: Provider, calls: nat, coerce: Coerce)
    requires TokenKey !in c.args && TokenKey !in c.request.api.defaults
    ensures var r := SendApiRequest(NewSession(None), c, p, calls, coerce);
            r.calls == calls && TokenKey !in r.payload.args && r.session == NewSession(None)
  {
  }

  /** A chained call: `api.users.get(user_id=1)` on a facade
      with defaults posts to the method URL with the facade timeout, and the
      call's `user_id` replaces the default one while other defaults stay. */
  lemma UsersGetExample(coerce: Coerce)
    requires coerce(JInt(1)) == "1"
    ensures var api := NewApi(map["user_id" := JInt(7), "v" := JStr("5.0")]);
            var c := Invoke(Extend(Attr(api, "users"), "get"), map["user_id" := JInt(1)]);
            var r := SendApiRequest(SessionState(Some("tok"), None, false), c, DefaultProvider, 0, coerce);
            && r.payload.url == "https://api.vk.com/method/users.get"
            && r.payload.timeout == Some(10)
            && r.payload.args == map["user_id" := JStr("1"), "v" := JStr("5.0"), "access_token" := JStr("tok")]
  {
    var api := NewApi(map["user_id" := JInt(7), "v" := JStr("5.0")]);
    var c := Invoke(Extend(Attr(api, "users"), "get"), map["user_id" := JInt(1)]);
    var r := SendApiRequest(SessionState(Some("tok"), None, false), c, DefaultProvider, 0, coerce);
    assert c.request.name == "users.get";
    assert Truthy(r.session.token);
    assert r.payload.args.Keys == {"user_id", "v", "access_token"};
  }
}
