/** One call through `Session.make_request`: prepare the payload, send it,
    classify the decoded envelopes, and on an authorization failure drop
    the token and issue the same request again. The HTTP exchange is a
    function from payload to decoded envelopes; the unbounded re-issue is
    bounded by fuel. */
module Dispatch {
  import opened Wrappers
  import opened Json
  import opened Session
  import opened Builder
  import opened Classification
  import opened ApiRequest

  /** The remote side: the envelopes decoded from the body it answers. */
  type Server = Payload -> seq<Envelope>

  /** The final outcome, the session afterwards, how many provider calls
      have been made in total, and how many requests were sent. An outcome
      of `Retry` means the fuel ran out before the next re-issue. */
  datatype CallResult = CallResult(outcome: Outcome, session: SessionState, calls: nat, attempts: nat)

  /** `make_request` with at most `fuel` re-issues. Every request after
      the first, and the first when the session needs a token, asks the
      provider for a token. */
  function MakeCall(s: SessionState, c: Call, p: Provider, calls: nat, coerce: Coerce,
                    server: Server, fuel: nat): (r: CallResult)
    ensures 1 <= r.attempts <= fuel + 1
    ensures r.outcome.Retry? ==> r.attempts == fuel + 1
    ensures r.calls == calls + r.attempts - (if s.tokenNeeded then 0 else 1)
    decreases fuel
  {
    var prep := SendApiRequest(s, c, p, calls, coerce);
    var o := Classify(server(prep.payload), c.request.raw);
    if o.Retry? && fuel > 0 then
      var next := MakeCall(AssignToken(None), c, p, prep.calls, coerce, server, fuel - 1);
      next.(attempts := next.attempts + 1)
    else
      CallResult(o, prep.session, prep.calls, 1)
  }

  /** A first body classified as anything but a retry ends the call after
      one request, with that outcome and the session as the request left
      it. */
  lemma NonRetryEndsCall(s: SessionState, c: Call, p: Provider, calls: nat, coerce: Coerce, server: Server, fuel: nat)
    requires !Classify(server(SendApiRequest(s, c, p, calls, coerce).payload), c.request.raw).Retry?
    ensures var prep := SendApiRequest(s, c, p, calls, coerce);
            MakeCall(s, c, p, calls, coerce, server, fuel)
              == CallResult(Classify(server(prep.payload), c.request.raw), prep.session, prep.calls, 1)
  {
  }

  /** A call that sent more than one request had its first body
      classified as a retry, and ends as the re-issued call ends. */
  lemma EarlierAttemptsFailedAuthorization(
    s: SessionState, c: Call, p: Provider, calls: nat, coerce: Coerce, server: Server, fuel: nat)
    requires MakeCall(s, c, p, calls, coerce, server, fuel).attempts > 1
    ensures Classify(server(SendApiRequest(s, c, p, calls, coerce).payload), c.request.raw) == Retry
    ensures var prep := SendApiRequest(s, c, p, calls, coerce);
            MakeCall(s, c, p, calls, coerce, server, fuel).outcome
              == MakeCall(AssignToken(None), c, p, prep.calls, coerce, server, fuel - 1).outcome
  {
  }

  /** After a retry the token is gone, so the next request asks the
      provider for a fresh one before it is sent. */
  lemma RetryAsksProvider(s: SessionState, c: Call, p: Provider, calls: nat, coerce: Coerce, server: Server, fuel: nat)
    requires fuel > 0
    requires Classify(server(SendApiRequest(s, c, p, calls, coerce).payload), c.request.raw) == Retry
    ensures var prep := SendApiRequest(s, c, p, calls, coerce);
            SendApiRequest(AssignToken(None), c, p, prep.calls, coerce).calls == prep.calls + 1
    ensures MakeCall(s, c, p, calls, coerce, server, fuel).attempts >= 2
  {
  }

  /** A server that answers every request carrying no token with an
      authorization failure. */
  ghost predicate RejectsTokenless(server: Server) {
    forall pl: Payload :: TokenKey !in pl.args ==>
      server(pl) == [map["error" := JObj(map["error_code" := JInt(AuthorizationFailed)])]]
  }

  /** With the default provider, a session that has lost its token never
      gets another: against a server that rejects tokenless requests, every
      re-issue fails again until the fuel runs out. */
  lemma {:induction false} DefaultProviderRetriesForever(c: Call, calls: nat, coerce: Coerce, server: Server, fuel: nat)
    requires RejectsTokenless(server)
    requires TokenKey !in c.args && TokenKey !in c.request.api.defaults
    ensures MakeCall(AssignToken(None), c, DefaultProvider, calls, coerce, server, fuel).outcome == Retry
    decreases fuel
  {
    var s := AssignToken(None);
    var prep := SendApiRequest(s, c, DefaultProvider, calls, coerce);
    assert !Truthy(prep.session.token);
    var body := server(prep.payload);
    assert body == [map["error" := JObj(map["error_code" := JInt(AuthorizationFailed)])]];
    assert !Stops(body[0]);
    PostScanOrder(body, c.request.raw);
    assert "error" in body[0] && IsAuthFailure(body[0]["error"]);
    if fuel > 0 {
      DefaultProviderRetriesForever(c, prep.calls, coerce, server, fuel - 1);
    }
  }

  /** Token expiry: the provider hands out "A" and
      then "B"; the server rejects "A" with an authorization failure and
      answers "ok" otherwise. The call succeeds on the second request,
      which carries "B", after exactly one retry. */
  lemma TokenExpiryScenario(c: Call, coerce: Coerce, server: Server)
    requires forall pl: Payload ::
               server(pl) == (if TokenKey in pl.args && pl.args[TokenKey] == JStr("A")
                              then [map["error" := JObj(map["error_code" := JInt(AuthorizationFailed)])]]
                              else [map["response" := JStr("ok")]])
    ensures var p := (s: SessionState, n: nat) => if n == 0 then Grant(Some("A"), None) else Grant(Some("B"), None);
            var r := MakeCall(AssignToken(None), c, p, 0, coerce, server, 3);
            && r.outcome == Success(JStr("ok"))
            && r.attempts == 2
            && r.calls == 2
            && r.session.token == Some("B")
  {
    var p := (s: SessionState, n: nat) => if n == 0 then Grant(Some("A"), None) else Grant(Some("B"), None);
    var s0 := AssignToken(None);
    var prep1 := SendApiRequest(s0, c, p, 0, coerce);
    assert prep1.session.token == Some("A") && prep1.calls == 1;
    var body1 := server(prep1.payload);
    assert TokenKey in prep1.payload.args && prep1.payload.args[TokenKey] == JStr("A");
    PostScanOrder(body1, c.request.raw);
    assert "error" in body1[0] && IsAuthFailure(body1[0]["error"]);
    var prep2 := SendApiRequest(s0, c, p, 1, coerce);
    assert prep2.session.token == Some("B") && prep2.calls == 2;
    assert prep2.payload.args[TokenKey] == JStr("B");
    var body2 := server(prep2.payload);
    assert body2 == [map["response" := JStr("ok")]];
    ClassifyByFirstStop(body2, c.request.raw, 0);
    assert Classify(body2, c.request.raw) == Success(JStr("ok"));
  }

  /** Captcha delegation: a body whose first envelope demands a captcha
      ends the call on the first request with the captcha hook, whatever
      follows it and whatever fuel is left. */
  lemma CaptchaEndsCall(s: SessionState, c: Call, p: Provider, calls: nat, coerce: Coerce, server: Server,
                        fuel: nat, error: Json)
    requires ErrorCode(error) == Some(JInt(CaptchaIsNeeded))
    requires var body := server(SendApiRequest(s, c, p, calls, coerce).payload);
             |body| > 0 && "error" in body[0] && body[0]["error"] == error
    ensures var r := MakeCall(s, c, p, calls, coerce, server, fuel);
            r.outcome == Captcha(error) && r.attempts == 1
  {
    var body := server(SendApiRequest(s, c, p, calls, coerce).payload);
    assert body == body[..1] + body[1..];
    CaptchaPriority(body[..1], body[1..], c.request.raw, 0);
  }
}
