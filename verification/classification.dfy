/** How `Session.make_request` reads the envelopes decoded from one
    response body: a single pass that stops at the first captcha demand or
    the first `"response"`, and otherwise decides after the scan between a
    retry without the token, the raw body, and an API error. */
module Classification {
  import opened Wrappers
  import opened Json

  /** The error code that asks for a captcha. */
  const CaptchaIsNeeded: int := 14
  /** The error code that says the access token is invalid. */
  const AuthorizationFailed: int := 5

  /** What one classification pass decides. */
  datatype Outcome =
      /** `on_captcha_is_needed(error_data, request)` is called. */
    | Captcha(error: Json)
      /** The `"response"` value is the call's result. */
    | Success(response: Json)
      /** The token is dropped and the same request is issued again. */
    | Retry
      /** A raw call's body, parsed as a single JSON document. */
    | RawBody(body: Json)
      /** A raw call's body is not exactly one JSON document, so
          `json.loads` raises. */
    | RawUnparsable
      /** `VkAPIMethodError(error)` is raised. */
    | ApiError(error: Json)
      /** An `"error"` value whose `"error_code"` cannot be looked up: a
          `KeyError` when it is an object without that key, a `TypeError`
          when it is not an object at all. The lookup raises before
          anything else happens. */
    | MalformedError(error: Json)
      /** A non-raw call found neither a response nor an error, so
          `errors[0]` raises. */
    | NoErrorToRaise

  /** `error_data['error_code']`, when the lookup succeeds. */
  function ErrorCode(error: Json): Option<Json> {
    match error
    case JObj(fields) => if "error_code" in fields then Some(fields["error_code"]) else None
    case _ => None
  }

  predicate IsCaptcha(e: Envelope) {
    "error" in e && ErrorCode(e["error"]) == Some(JInt(CaptchaIsNeeded))
  }

  predicate IsMalformed(e: Envelope) {
    "error" in e && ErrorCode(e["error"]).None?
  }

  /** The scan ends at this envelope. */
  predicate Stops(e: Envelope) {
    IsCaptcha(e) || IsMalformed(e) || "response" in e
  }

  /** The outcome decided at a stopping envelope: the error is looked at
      before the response. */
  function StopOutcome(e: Envelope): Outcome
    requires Stops(e)
  {
    if IsMalformed(e) then MalformedError(e["error"])
    else if IsCaptcha(e) then Captcha(e["error"])
    else Success(e["response"])
  }

  /** The `"error"` values of the envelopes, in document order. */
  function Errors(envs: seq<Envelope>): seq<Json> {
    if |envs| == 0 then []
    else
      var last := envs[|envs| - 1];
      Errors(envs[..|envs| - 1]) + (if "error" in last then [last["error"]] else [])
  }

  predicate IsAuthFailure(error: Json) {
    ErrorCode(error) == Some(JInt(AuthorizationFailed))
  }

  predicate AnyAuthFailure(errors: seq<Json>) {
    exists j :: 0 <= j < |errors| && IsAuthFailure(errors[j])
  }

  /** The decision once every envelope has been read without stopping. It
      never hands off to the captcha hook or yields a response; it retries
      exactly when an authorization failure was collected; and a raw call
      never raises an API error. */
  function AfterScan(envs: seq<Envelope>, raw: bool): (r: Outcome)
    ensures !r.Captcha? && !r.Success? && !r.MalformedError?
    ensures r.Retry? <==> AnyAuthFailure(Errors(envs))
    ensures raw ==> !r.ApiError? && !r.NoErrorToRaise?
    ensures !raw ==> !r.RawBody? && !r.RawUnparsable?
  {
    var errors := Errors(envs);
    if AnyAuthFailure(errors) then Retry
    else if raw then (if |envs| == 1 then RawBody(JObj(envs[0])) else RawUnparsable)
    else if |errors| == 0 then NoErrorToRaise
    else ApiError(errors[0])
  }

  /** The scan from envelope `i` on. */
  function ScanFrom(envs: seq<Envelope>, i: nat, raw: bool): (r: Outcome)
    requires i <= |envs|
    ensures || r == AfterScan(envs, raw)
            || exists k :: i <= k < |envs| && Stops(envs[k]) && r == StopOutcome(envs[k])
    decreases |envs| - i
  {
    if i == |envs| then AfterScan(envs, raw)
    else if Stops(envs[i]) then StopOutcome(envs[i])
    else ScanFrom(envs, i + 1, raw)
  }

  /** The classification of a whole body. Each outcome is backed by the
      body: a captcha, malformed error or success comes from some envelope;
      a retry from a collected authorization failure; a raw result only
      for a raw call with a single document; an API error carries the
      first collected error; and the `errors[0]` failure happens only when
      nothing was collected. */
  function Classify(envs: seq<Envelope>, raw: bool): (r: Outcome)
    ensures r.Captcha? ==> exists k :: 0 <= k < |envs| && IsCaptcha(envs[k]) && envs[k]["error"] == r.error
    ensures r.MalformedError? ==> exists k :: 0 <= k < |envs| && IsMalformed(envs[k]) && envs[k]["error"] == r.error
    ensures r.Success? ==> exists k :: 0 <= k < |envs| && "response" in envs[k] && envs[k]["response"] == r.response
    ensures r.Retry? ==> AnyAuthFailure(Errors(envs))
    ensures r.RawBody? ==> raw && |envs| == 1 && r.body == JObj(envs[0])
    ensures r.RawUnparsable? ==> raw && |envs| != 1
    ensures r.ApiError? ==> !raw && |Errors(envs)| > 0 && r.error == Errors(envs)[0]
    ensures r.NoErrorToRaise? ==> !raw && Errors(envs) == []
  {
    ScanFrom(envs, 0, raw)
  }

  /** `envs[k]` is the first envelope at which the scan stops. */
  predicate FirstStop(envs: seq<Envelope>, k: nat) {
    k < |envs| && Stops(envs[k]) && forall j :: 0 <= j < k ==> !Stops(envs[j])
  }

  predicate NoStop(envs: seq<Envelope>) {
    forall j :: 0 <= j < |envs| ==> !Stops(envs[j])
  }

  /** Envelopes that do not stop the scan are passed over. */
  lemma {:induction false} ScanSkips(envs: seq<Envelope>, i: nat, k: nat, raw: bool)
    requires i <= k <= |envs|
    requires forall j :: i <= j < k ==> !Stops(envs[j])
    ensures ScanFrom(envs, i, raw) == ScanFrom(envs, k, raw)
    decreases k - i
  {
    if i < k {
      ScanSkips(envs, i + 1, k, raw);
    }
  }

  /** The classification is decided by the first stopping envelope when
      there is one, and by the post-scan rules otherwise. */
  lemma ClassifyByFirstStop(envs: seq<Envelope>, raw: bool, k: nat)
    requires FirstStop(envs, k)
    ensures Classify(envs, raw) == StopOutcome(envs[k])
  {
    ScanSkips(envs, 0, k, raw);
  }

  lemma ClassifyWithoutStop(envs: seq<Envelope>, raw: bool)
    requires NoStop(envs)
    ensures Classify(envs, raw) == AfterScan(envs, raw)
  {
    ScanSkips(envs, 0, |envs|, raw);
  }

  /** Captcha priority: the first captcha demand, reached before any
      response, hands its error payload to the captcha hook; nothing after
      it, not even a response, is looked at. */
  lemma CaptchaPriority(envs: seq<Envelope>, later: seq<Envelope>, raw: bool, k: nat)
    requires k < |envs| && IsCaptcha(envs[k])
    requires forall j :: 0 <= j < k ==> !Stops(envs[j])
    ensures Classify(envs + later, raw) == Captcha(envs[k]["error"])
  {
    var all := envs + later;
    assert FirstStop(all, k) by {
      forall j | 0 <= j < k ensures !Stops(all[j]) {
        assert all[j] == envs[j];
      }
    }
    ClassifyByFirstStop(all, raw, k);
  }

  /** First response wins: the first envelope with a response, reached
      with no captcha demand or malformed error before it or in it, gives
      the result, even when it or earlier envelopes carry other errors;
      those errors are not raised and later envelopes are not looked at. */
  lemma FirstResponseWins(envs: seq<Envelope>, later: seq<Envelope>, raw: bool, k: nat)
    requires k < |envs| && "response" in envs[k]
    requires !IsCaptcha(envs[k]) && !IsMalformed(envs[k])
    requires forall j :: 0 <= j < k ==> !Stops(envs[j])
    ensures Classify(envs + later, raw) == Success(envs[k]["response"])
  {
    var all := envs + later;
    assert FirstStop(all, k) by {
      forall j | 0 <= j < k ensures !Stops(all[j]) {
        assert all[j] == envs[j];
      }
    }
    ClassifyByFirstStop(all, raw, k);
  }

  /** Nothing after a stopping envelope changes the classification. */
  lemma LaterEnvelopesIgnored(envs: seq<Envelope>, later: seq<Envelope>, raw: bool, k: nat)
    requires FirstStop(envs, k)
    ensures Classify(envs + later, raw) == Classify(envs, raw)
  {
    var all := envs + later;
    assert FirstStop(all, k) by {
      assert all[k] == envs[k];
      forall j | 0 <= j < k ensures !Stops(all[j]) {
        assert all[j] == envs[j];
      }
    }
    ClassifyByFirstStop(all, raw, k);
    ClassifyByFirstStop(envs, raw, k);
  }

  /** `Errors` keeps every error payload, in document order, and nothing else. */
  lemma {:induction false} ErrorsInOrder(envs: seq<Envelope>, j: nat)
    requires j < |envs| && "error" in envs[j]
    requires forall i :: 0 <= i < j ==> "error" !in envs[i]
    ensures |Errors(envs)| > 0 && Errors(envs)[0] == envs[j]["error"]
    decreases |envs|
  {
    var init := envs[..|envs| - 1];
    if j < |envs| - 1 {
      ErrorsInOrder(init, j);
    } else {
      NoErrorsBefore(init);
    }
  }

  lemma {:induction false} NoErrorsBefore(envs: seq<Envelope>)
    requires forall i :: 0 <= i < |envs| ==> "error" !in envs[i]
    ensures Errors(envs) == []
    decreases |envs|
  {
    if |envs| > 0 {
      NoErrorsBefore(envs[..|envs| - 1]);
    }
  }

  /** Every collected error comes from some envelope's `"error"` key. */
  lemma {:induction false} ErrorsComeFromEnvelopes(envs: seq<Envelope>, m: nat)
    requires m < |Errors(envs)|
    ensures exists j :: 0 <= j < |envs| && "error" in envs[j] && envs[j]["error"] == Errors(envs)[m]
    decreases |envs|
  {
    var init := envs[..|envs| - 1];
    if m < |Errors(init)| {
      ErrorsComeFromEnvelopes(init, m);
      var j :| 0 <= j < |init| && "error" in init[j] && init[j]["error"] == Errors(init)[m];
      assert envs[j] == init[j];
    } else {
      assert "error" in envs[|envs| - 1];
    }
  }

  /** Every error payload some envelope carries is collected. */
  lemma {:induction false} EnvelopeErrorsCollected(envs: seq<Envelope>, j: nat)
    requires j < |envs| && "error" in envs[j]
    ensures exists m :: 0 <= m < |Errors(envs)| && Errors(envs)[m] == envs[j]["error"]
    decreases |envs|
  {
    var init := envs[..|envs| - 1];
    if j < |envs| - 1 {
      EnvelopeErrorsCollected(init, j);
      var m :| 0 <= m < |Errors(init)| && Errors(init)[m] == init[j]["error"];
      assert Errors(envs)[m] == Errors(init)[m];
    } else {
      assert Errors(envs)[|Errors(init)|] == envs[j]["error"];
    }
  }

  /** Post-scan order: when no envelope stops the scan, an
      authorization failure anywhere forces a retry, even for a raw call;
      otherwise a raw call returns its single parsed document; otherwise
      the first error in document order is raised. */
  lemma PostScanOrder(envs: seq<Envelope>, raw: bool)
    requires NoStop(envs)
    ensures (exists j :: 0 <= j < |envs| && "error" in envs[j] && IsAuthFailure(envs[j]["error"]))
            <==> Classify(envs, raw) == Retry
    ensures Classify(envs, raw) != Retry && raw ==>
              Classify(envs, raw) == (if |envs| == 1 then RawBody(JObj(envs[0])) else RawUnparsable)
    ensures Classify(envs, raw) != Retry && !raw ==>
              forall j :: 0 <= j < |envs| && "error" in envs[j] && (forall i :: 0 <= i < j ==> "error" !in envs[i])
                ==> Classify(envs, raw) == ApiError(envs[j]["error"])
    ensures !raw && (forall j :: 0 <= j < |envs| ==> "error" !in envs[j]) ==>
              Classify(envs, raw) == NoErrorToRaise
  {
    ClassifyWithoutStop(envs, raw);
    var errors := Errors(envs);
    if exists j :: 0 <= j < |envs| && "error" in envs[j] && IsAuthFailure(envs[j]["error"]) {
      var j :| 0 <= j < |envs| && "error" in envs[j] && IsAuthFailure(envs[j]["error"]);
      EnvelopeErrorsCollected(envs, j);
    }
    if AnyAuthFailure(errors) {
      var m :| 0 <= m < |errors| && IsAuthFailure(errors[m]);
      ErrorsComeFromEnvelopes(envs, m);
    }
    forall j | 0 <= j < |envs| && "error" in envs[j] && (forall i :: 0 <= i < j ==> "error" !in envs[i])
      ensures |errors| > 0 && errors[0] == envs[j]["error"]
    {
      ErrorsInOrder(envs, j);
    }
    if forall j :: 0 <= j < |envs| ==> "error" !in envs[j] {
      NoErrorsBefore(envs);
    }
  }

  /** The loop of `make_request`, as written: it keeps the error payloads
      and their codes in two lists and returns from inside the loop. */
  method MakeRequest(envs: seq<Envelope>, raw: bool) returns (o: Outcome)
    ensures o == Classify(envs, raw)
  {
    var errors: seq<Json> := [];
    var codes: seq<Json> := [];
    var i := 0;
    while i < |envs|
      invariant 0 <= i <= |envs|
      invariant errors == Errors(envs[..i])
      invariant |codes| == |errors|
      invariant forall j :: 0 <= j < |codes| ==> ErrorCode(errors[j]) == Some(codes[j])
      invariant Classify(envs, raw) == ScanFrom(envs, i, raw)
    {
      var data := envs[i];
      assert envs[..i + 1][..i] == envs[..i];
      if "error" in data {
        var errorData := data["error"];
        var code := ErrorCode(errorData);
        if code.None? {
          return MalformedError(errorData);
        }
        if code.value == JInt(CaptchaIsNeeded) {
          return Captcha(errorData);
        }
        codes := codes + [code.value];
        errors := errors + [errorData];
      }
      if "response" in data {
        return Success(data["response"]);
      }
      i := i + 1;
    }
    assert envs[..i] == envs;
    if JInt(AuthorizationFailed) in codes {
      var j :| 0 <= j < |codes| && codes[j] == JInt(AuthorizationFailed);
      assert IsAuthFailure(errors[j]);
      return Retry;
    }
    assert !AnyAuthFailure(errors) by {
      forall j | 0 <= j < |errors| ensures !IsAuthFailure(errors[j]) {
        assert codes[j] != JInt(AuthorizationFailed);
      }
    }
    if raw {
      if |envs| == 1 {
        return RawBody(JObj(envs[0]));
      }
      return RawUnparsable;
    }
    if |errors| == 0 {
      return NoErrorToRaise;
    }
    return ApiError(errors[0]);
  }

  /** A two-document body: an error with code 99
      followed by a response `"ok"` yields `"ok"`; the error is not raised. */
  lemma LoggedErrorThenResponse(raw: bool)
    ensures Classify([map["error" := JObj(map["error_code" := JInt(99)])],
                      map["response" := JStr("ok")]], raw)
            == Success(JStr("ok"))
  {
  }
}
