# aiovk request dispatch, modelled in Dafny

This project models the request pipeline of `aiovk/api.py`, an asynchronous client for VK's HTTP API. The asynchronous I/O is removed. What remains is modelled as immutable datatypes and pure functions:

- **Session token state** (`session.dfy`, module `Session`). The state is the triple `(token, expiry, token-is-needed)`. The module covers the `access_token` setter and getter, the constructor's quirk, the default `get_access_token`, and `censored_access_token`.
- **Call builder** (`builder.dfy`, module `Builder`). `API` is the facade, with a timeout and default arguments. `Request` is the descriptor, with a facade, a dotted name, a raw flag and a timeout. A `Call` is a request bound to its keyword arguments. The module covers `API.__getattr__`, `API.__call__`, `API.upload`, `Request.__getattr__` and `Request.__call__`.
- **Request payload** (`api_request.dfy`, module `ApiRequest`). `send_api_request` up to the HTTP send:
  - URL and timeout are chosen by the raw flag;
  - the facade defaults are overlaid by the stringified call arguments;
  - the `access_token` entry is attached when the getter yields a usable token.
- **Envelope classification** (`classification.dfy`, module `Classification`). A body is the sequence of JSON objects decoded from it (`Envelope`). `make_request`'s scan over a body is modelled twice, and the two are proved equal:
  - `Classify`, a recursive reference definition;
  - `MakeRequest`, a loop written like the source's `for` loop.

  There is one outcome for each way the source can leave the loop: captcha hook, success, retry, raw body, API error, and the three Python exceptions the code can hit: an `"error"` value whose `error_code` cannot be looked up (a `KeyError`, or a `TypeError` when the value is not an object), `json.loads` failing on a raw body, and `errors[0]` on an empty list.
- **Dispatch** (`dispatch.dfy`, module `Dispatch`). One call runs prepare, send, classify. On an authorization failure it drops the token and re-issues the request. The server is a function from payload to decoded envelopes. The token provider is a function of the session and of how many times it has been asked.

`wrappers.dfy` holds `Option` and `json.dfy` the JSON value type.

Some behaviour of the code is easy to misread; the model follows the code:

- `Request.__getattr__` builds the extended request with `raw = False` and no timeout. Extending an upload request therefore does not keep its raw flag or timeout (`Builder.Extend`).
- The constructor forces `access_token_is_needed` to `False` after running the setter. A fresh session without a token therefore breaks the invariant "flag = no usable token". Such a session never asks the provider until an authorization failure drops the token (`Session.NewSessionConsistency`, `ApiRequest.FreshSessionSendsNoToken`).
- Only the call's arguments go through `stringify_values`. The facade's default arguments are sent as given.
- Timeouts depend on the raw flag. A raw call uses its own timeout even when that is `None`, so it has no deadline. It does not fall back to the facade timeout. A non-raw call always uses the facade timeout.
- A raw call whose scan finds nothing returns `json.loads` of the whole body. That raises unless the body is exactly one JSON document, so zero or two concatenated documents give `RawUnparsable`.

## Model

| member | source | states |
|---|---|---|
| Session.AssignToken | aiovk/api.py:48-52 | the setter stores the given token, clears the expiry and leaves the session consistent: flag set iff the token is `None` or `""` |
| Session.NewSession | aiovk/api.py:24-31 | the constructor keeps the token, has no expiry, and reports that no token is needed whatever the token |
| Session.NewSessionConsistency | aiovk/api.py:30-31 | a fresh session satisfies the flag invariant exactly when it was given a usable token |
| Session.ReadToken | aiovk/api.py:37-46 | the getter returns the token the session then holds; with the flag clear nothing changes and no provider is asked; with it set the provider is asked once, its token and expiry are stored and the session is consistent |
| Session.SecondReadIsFree | aiovk/api.py:123-125 | once a read yields a usable token the flag is clear, and a second read returns the same token without asking the provider |
| Session.DefaultProvider | aiovk/api.py:62-68 | the default `get_access_token` answers with the token and expiry the session holds |
| Session.DefaultProviderKeepsToken | aiovk/api.py:62-68 | with the default `get_access_token` a refresh never changes the held token |
| Session.Censored | aiovk/api.py:54-57 | no censored value iff the token is `None` or `""`; otherwise the first four characters, `***`, the last four (the whole token on both sides when shorter than four) |
| Session.CensoredHidesMiddle | aiovk/api.py:54-57 | tokens of length at least eight that agree on their first and last four characters have the same censored form, of length 11, whatever their middles |
| Session.CensoredToken | aiovk/api.py:54-57 | the session's censored token is absent iff it holds no usable token, which in a consistent session is iff a token is needed |
| Builder.NewApi | aiovk/api.py:171-175 | a facade built without a timeout uses 10 seconds and keeps the given defaults |
| Builder.Attr | aiovk/api.py:177-178 | attribute access on the facade gives a plain request on that facade, named exactly as the attribute, with no timeout |
| Builder.Extend | aiovk/api.py:197-198 | the extended request shares the facade; its name is the old name, a dot, then the segment, so both can be read back; it is never raw and has no timeout |
| Builder.Invoke | aiovk/api.py:200-202 | invoking binds exactly the given arguments to the request as it stands |
| Builder.ApiCall | aiovk/api.py:180-181 | `API.__call__` binds the given arguments to a plain request named exactly as given, with no timeout |
| Builder.Upload | aiovk/api.py:183-185 | `upload` binds the given arguments to a raw request named by the verbatim URL and carrying the given timeout |
| Builder.ChainIsApiCall | aiovk/api.py:177-198 | attribute access `api.a.b…` builds the same request as `API.__getattr__` with the dotted name, and invoking it binds the same call as `API.__call__` with that name |
| Classification.Classify | aiovk/api.py:80-106 | every outcome is backed by the body: captcha, malformed error and success payloads come from some envelope; a retry needs a collected authorization failure; a raw result needs a raw call (and parses only a single document); an API error carries the first collected error; the `errors[0]` failure happens only when nothing was collected |
| Classification.AfterScan | aiovk/api.py:97-106 | after a scan without a stop: never a captcha, success or malformed error; retry iff an authorization failure was collected; raw results only for raw calls, API errors only for non-raw ones |
| Classification.ScanSkips | aiovk/api.py:82-90 | envelopes that neither demand a captcha, nor carry a malformed error, nor carry a response are passed over by the scan |
| Classification.ClassifyByFirstStop | aiovk/api.py:82-95 | when the scan stops, the outcome is decided by the first stopping envelope: error lookup before response |
| Classification.ClassifyWithoutStop | aiovk/api.py:97-106 | when no envelope stops the scan, the outcome is decided by the post-scan rules on the collected errors |
| Classification.CaptchaPriority | aiovk/api.py:82-86 | the first captcha demand, with no stop before it, yields the captcha hook with its error payload, whatever envelopes follow |
| Classification.FirstResponseWins | aiovk/api.py:83-95 | the first envelope with a response gives the result, when no captcha or malformed error comes before or in it; errors before it, including its own, are not raised; later envelopes do not matter |
| Classification.LaterEnvelopesIgnored | aiovk/api.py:82-95 | appending envelopes after a stopping one leaves the classification unchanged |
| Classification.ErrorsInOrder | aiovk/api.py:88-89 | the first collected error is the error of the first envelope carrying one |
| Classification.ErrorsComeFromEnvelopes | aiovk/api.py:83-89 | every collected error is the error payload of some envelope |
| Classification.EnvelopeErrorsCollected | aiovk/api.py:83-89 | every envelope's error payload is among the collected errors |
| Classification.PostScanOrder | aiovk/api.py:97-106 | with no stop: retry iff some envelope has an authorization failure, for raw calls too; otherwise a raw call returns its single parsed document (or fails to parse); otherwise the first error in document order is raised, and with no error at all `errors[0]` fails |
| Classification.MakeRequest | aiovk/api.py:80-106 | the loop with its two lists and early returns computes exactly the reference classification |
| Classification.LoggedErrorThenResponse | aiovk/api.py:78-95 | an error with code 99 followed by a response `"ok"` yields `"ok"` |
| ApiRequest.StringifyValues | aiovk/api.py:122 | the stringified call arguments have exactly the call's keys |
| ApiRequest.SendApiRequest | aiovk/api.py:109-125 | non-raw: API URL plus name and facade timeout; raw: name as URL and the request's own timeout. The provider is asked only when the flag is set. The sent keys are exactly the defaults', the call's, and `access_token` iff the resolved token is usable. The token value wins over any other `access_token`; otherwise a call value (coerced) wins over a default |
| ApiRequest.SessionTokenWins | aiovk/api.py:121-125 | a caller's own `access_token` is replaced by a usable session token, and sent coerced otherwise |
| ApiRequest.FreshSessionSendsNoToken | aiovk/api.py:30-31 | a session built without a token asks no provider, sends no token and is left unchanged |
| ApiRequest.UsersGetExample | aiovk/api.py:111-125 | `api.users.get(user_id=1)` posts to `https://api.vk.com/method/users.get` with timeout 10; the call's `user_id` wins over the default one, other defaults stay, and the token is attached |
| Dispatch.MakeCall | aiovk/api.py:97-100 | one to `fuel + 1` requests are sent; ending in a retry means all fuel was used; the provider is asked exactly once per re-issue, plus once for the first request when a token is needed |
| Dispatch.NonRetryEndsCall | aiovk/api.py:82-106 | a first body classified as anything but a retry ends the call after one request with exactly that outcome, the session as the request left it and its provider-call count |
| Dispatch.EarlierAttemptsFailedAuthorization | aiovk/api.py:97-100 | a call that sent more than one request had its first body classified as retry, and ends as the re-issued call from a dropped token ends |
| Dispatch.RetryAsksProvider | aiovk/api.py:97-100 | after a retry the token is dropped, so the re-issued request asks the provider once more and at least two requests are sent |
| Dispatch.DefaultProviderRetriesForever | aiovk/api.py:97-100 | with the default provider and a server rejecting tokenless requests, the call retries until the fuel runs out |
| Dispatch.TokenExpiryScenario | aiovk/api.py:97-100 | provider gives "A" then "B"; server rejects "A" and answers "ok" otherwise: the call succeeds with "ok" after two requests and two provider calls, holding "B" |
| Dispatch.CaptchaEndsCall | aiovk/api.py:82-86 | a captcha demand in the first envelope ends the call on the first request with the captcha hook |

## Left out

- Transport: `aiohttp.ClientSession`, `send_request`, the `asyncio.sleep` pause, `asyncio.wait_for` and `raise_for_status` are network I/O and timing. The server is an abstract function from payload to decoded envelopes, so HTTP errors and timeouts are not modelled.
- `json_iter_parse` is in `aiovk/utils`, which is not part of this model. A body is taken as already decoded into its sequence of top-level objects, so parse errors are not modelled. The raw branch's `json.loads` is modelled as succeeding exactly when that sequence has one element.
- `stringify_values` is in `aiovk/utils` and is not part of this model. It is the parameter `Coerce`, applied value by value.
- ApiRequest.StringifyValues: states only that keys are kept and each value is coerced on its own. The coercion policy itself is not visible.
- `CAPTCHA_IS_NEEDED` and `AUTHORIZATION_FAILED` come from `aiovk/exceptions`, which is not part of this model. They are given VK's documented values, 14 and 5. The general lemmas use only that the two differ; `Classification.LoggedErrorThenResponse` also uses that neither is 99.
- `AuthMixin`, `InteractiveMixin` and the three session subclasses are not part of this model. The captcha hook appears only as the `Captcha` outcome, and a token provider is the `Provider` parameter. A provider that raises is not modelled.
- `auth_code_is_needed`, `auth_captcha_is_needed` and `phone_number_is_needed` only raise. `get_user_login` does nothing.
- Logging has no behavioural effect. `VERSION` and `pause_between_requests` play no part in the logic.
- Concurrent calls sharing one session are asynchronous scheduling, not sequential logic.
- Dispatch.MakeCall: the source re-issues without bound. The model stops after `fuel` re-issues, and a final `Retry` outcome marks that bound.
- Python attribute lookup resolves names that are real attributes before `__getattr__` runs. On `API` these are `upload`, `_session`, `_timeout` and `_method_default_args`; on `Request` they are its slots. The model treats every name as a method-name segment.
- The facade's reference to its session is not a field of `Api`. The session is the state that `Dispatch.MakeCall` threads through a call.
- `make_request`'s `**method_kwargs` is always empty in the source and is not modelled.
- Builder.Invoke: `Request.__call__` binds by assigning `_method_args` on the request itself, and `send_api_request` reads it only when the returned coroutine runs, and again on every re-issue. Calling the same request object twice before awaiting the first call therefore sends the second call's arguments for both. The model's `Call` is an immutable pairing, so that aliasing is not modelled.
- Floating-point values are not modelled: the JSON type has no floats and timeouts are whole seconds. In Python an `error_code` of `5.0` equals `AUTHORIZATION_FAILED` and triggers a retry, and a timeout may be fractional.
