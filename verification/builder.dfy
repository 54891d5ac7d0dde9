/** The call builder: the `API` facade and the `Request` descriptor that
    accumulates a dotted method name and is bound to keyword arguments
    when invoked. The facade's session is kept apart, as the state the
    dispatcher threads through a call. */
module Builder {
  import opened Wrappers
  import opened Json

  /** `API(session, timeout=10, **method_default_args)`'s default timeout. */
  const DefaultTimeout: int := 10

  /** A timeout in seconds; `None` means no deadline. */
  type Timeout = Option<int>

  /** The facade: its request timeout and the default arguments merged
      into every call. */
  datatype Api = Api(timeout: Timeout, defaults: map<string, Json>)

  /** `Request(api, method_name, raw=False, timeout=None)`. */
  datatype Request = Request(api: Api, name: string, raw: bool, timeout: Timeout)

  /** A request after `__call__` has bound its keyword arguments. */
  datatype Call = Call(request: Request, args: map<string, Json>)

  /** A facade built with the default timeout. */
  function NewApi(defaults: map<string, Json>): (a: Api)
    ensures a.timeout == Some(DefaultTimeout)
    ensures a.defaults == defaults
  {
    Api(Some(DefaultTimeout), defaults)
  }

  /** `API.__getattr__`: a plain request on this facade, named exactly as
      the attribute, with no timeout of its own. */
  function Attr(api: Api, name: string): (r: Request)
    ensures r.api == api && r.name == name
    ensures !r.raw && r.timeout.None?
  {
    Request(api, name, false, None)
  }

  /** `Request.__getattr__`: a new request on the same facade whose name
      gains `"." + segment`. Extending is reversible: the old name and the
      segment can be read back from the new name. The raw flag and timeout
      are not carried over, so extending an upload gives a plain request. */
  function Extend(req: Request, segment: string): (r: Request)
    ensures r.api == req.api
    ensures |r.name| == |req.name| + 1 + |segment|
    ensures r.name[..|req.name|] == req.name
    ensures r.name[|req.name|] == '.'
    ensures r.name[|req.name| + 1..] == segment
    ensures !r.raw && r.timeout.None?
  {
    var r := Request(req.api, req.name + "." + segment, false, None);
    assert r.name == req.name + ("." + segment);
    r
  }

  /** `Request.__call__`: bind the keyword arguments to the request as it
      stands, without altering its facade, name, raw flag or timeout. */
  function Invoke(req: Request, args: map<string, Json>): (c: Call)
    ensures c.request == req && c.args == args
  {
    Call(req, args)
  }

  /** `API.__call__`: look the name up as an attribute and invoke it. The
      result is never raw and is named exactly as given, dots included. */
  function ApiCall(api: Api, name: string, args: map<string, Json>): (c: Call)
    ensures c.request.api == api && c.request.name == name
    ensures !c.request.raw && c.request.timeout.None?
    ensures c.args == args
  {
    Invoke(Attr(api, name), args)
  }

  /** `API.upload`: a raw request whose name is the literal URL, carrying
      the given timeout. */
  function Upload(api: Api, url: string, timeout: Timeout, args: map<string, Json>): (c: Call)
    ensures c.request.api == api && c.request.name == url
    ensures c.request.raw && c.request.timeout == timeout
    ensures c.args == args
  {
    Invoke(Request(api, url, true, timeout), args)
  }

  /** The dotted name of a non-empty list of segments. */
  function JoinDots(segments: seq<string>): string
    requires |segments| > 0
  {
    if |segments| == 1 then segments[0]
    else JoinDots(segments[..|segments| - 1]) + "." + segments[|segments| - 1]
  }

  /** `api.a.b.c`: attribute access on the facade, then on each request. */
  function Chain(api: Api, segments: seq<string>): Request
    requires |segments| > 0
  {
    if |segments| == 1 then Attr(api, segments[0])
    else Extend(Chain(api, segments[..|segments| - 1]), segments[|segments| - 1])
  }

  /** A chain of attribute accesses builds the same request as one access
      with the dotted name: same facade, joined name, plain, no timeout.
      So `api.users.get(**args)` and `api("users.get", **args)` bind the
      same call. */
  lemma {:induction false} ChainIsApiCall(api: Api, segments: seq<string>, args: map<string, Json>)
    requires |segments| > 0
    ensures Chain(api, segments) == Attr(api, JoinDots(segments))
    ensures Invoke(Chain(api, segments), args) == ApiCall(api, JoinDots(segments), args)
  {
    if |segments| > 1 {
      ChainIsApiCall(api, segments[..|segments| - 1], args);
    }
  }
}
