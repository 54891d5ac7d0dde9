/** The token part of a `Session`: the held access token, its expiry, the
    "token is needed" flag, the property getter that refreshes the token
    from a provider, the setter, and the censored form used in logs. */
module Session {
  import opened Wrappers

  /** `(_access_token, _access_token_expires_in, access_token_is_needed)`. */
  datatype SessionState = SessionState(
    token: Option<string>,
    expiresIn: Option<int>,
    tokenNeeded: bool)

  /** Python truthiness of an optional string: `None` and `""` are false. */
  predicate Truthy(t: Option<string>) {
    t.Some? && t.value != ""
  }

  /** The flag is the negation of token presence. */
  predicate Consistent(s: SessionState) {
    s.tokenNeeded == !Truthy(s.token)
  }

  /** The `access_token` setter. It overwrites all three fields, so the
      previous state plays no part. */
  function AssignToken(value: Option<string>): (r: SessionState)
    ensures r.token == value
    ensures r.expiresIn.None?
    ensures Consistent(r)
  {
    SessionState(value, None, !Truthy(value))
  }

  /** `Session.__init__`: run the setter, then force the flag to `False`. */
  function NewSession(token: Option<string>): (r: SessionState)
    ensures r.token == token
    ensures r.expiresIn.None?
    ensures !r.tokenNeeded
  {
    AssignToken(token).(tokenNeeded := false)
  }

  /** A freshly built session without a usable token breaks the invariant:
      it does not report that it needs one. With a usable token it holds. */
  lemma NewSessionConsistency(token: Option<string>)
    ensures Consistent(NewSession(token)) <==> Truthy(token)
  {
  }

  /** What a token provider hands back: `(token, expires_in)`. */
  datatype Grant = Grant(token: Option<string>, expiresIn: Option<int>)

  /** A token provider. It sees the session and the number of times it has
      been asked before, so a provider that answers differently on each
      call can be described. */
  type Provider = (SessionState, nat) -> Grant

  /** The default `get_access_token`: hand back what the session holds. */
  function DefaultProvider(s: SessionState, asked: nat): (g: Grant)
    ensures g.token == s.token && g.expiresIn == s.expiresIn
  {
    Grant(s.token, s.expiresIn)
  }

  /** The result of one read of the `access_token` property: the value
      returned, the session afterwards, and how many provider calls have
      been made in total. */
  datatype TokenRead = TokenRead(value: Option<string>, session: SessionState, calls: nat)

  /** The `access_token` getter. When the flag is set, the provider is
      asked once; its token goes through the setter and its expiry is then
      stored. Otherwise nothing changes. */
  function ReadToken(s: SessionState, p: Provider, calls: nat): (r: TokenRead)
    ensures r.value == r.session.token
    ensures !s.tokenNeeded ==> r.session == s && r.calls == calls
    ensures s.tokenNeeded ==>
              && r.calls == calls + 1
              && r.value == p(s, calls).token
              && r.session.expiresIn == p(s, calls).expiresIn
              && Consistent(r.session)
  {
    if s.tokenNeeded then
      var g := p(s, calls);
      TokenRead(g.token, AssignToken(g.token).(expiresIn := g.expiresIn), calls + 1)
    else
      TokenRead(s.token, s, calls)
  }

  /** Once a read has produced a usable token, reading again asks no
      provider and changes nothing: the flag is clear afterwards. */
  lemma SecondReadIsFree(s: SessionState, p: Provider, calls: nat)
    requires Truthy(ReadToken(s, p, calls).value)
    ensures !ReadToken(s, p, calls).session.tokenNeeded
    ensures var first := ReadToken(s, p, calls);
            ReadToken(first.session, p, first.calls) == first
  {
  }

  /** With the default provider a refresh never changes the token: a
      session holding no usable token keeps holding none. */
  lemma DefaultProviderKeepsToken(s: SessionState, calls: nat)
    ensures ReadToken(s, DefaultProvider, calls).value == s.token
    ensures ReadToken(s, DefaultProvider, calls).session.token == s.token
  {
  }

  /** Python's `t[:4]`. */
  function Head4(t: string): string {
    if |t| <= 4 then t else t[..4]
  }

  /** Python's `t[-4:]`. */
  function Tail4(t: string): string {
    if |t| <= 4 then t else t[|t| - 4..]
  }

  /** The `censored_access_token` property: the first four characters,
      `***`, and the last four; nothing when the token is not usable. */
  function Censored(t: Option<string>): (r: Option<string>)
    ensures r.None? <==> !Truthy(t)
    ensures Truthy(t) && |t.value| >= 4 ==>
              && |r.value| == 11
              && r.value[..4] == t.value[..4]
              && r.value[4..7] == "***"
              && r.value[7..] == t.value[|t.value| - 4..]
    ensures Truthy(t) && |t.value| < 4 ==> r.value == t.value + "***" + t.value
  {
    if Truthy(t) then Some(Head4(t.value) + "***" + Tail4(t.value)) else None
  }

  /** The censored form of the token a session holds, as logged by the
      getter. It is absent exactly when no usable token is held, which in a
      consistent session is exactly when a token is needed. */
  function CensoredToken(s: SessionState): (r: Option<string>)
    ensures r.None? <==> !Truthy(s.token)
    ensures Consistent(s) ==> (r.None? <==> s.tokenNeeded)
  {
    Censored(s.token)
  }

  /** The censored form reveals nothing between the first four and the
      last four characters: two tokens of length at least eight that agree
      there censor identically, whatever their middles, and the censored
      form has the same length whatever the token's length. */
  lemma CensoredHidesMiddle(a: string, b: string)
    requires |a| >= 8 && |b| >= 8
    requires a[..4] == b[..4]
    requires a[|a| - 4..] == b[|b| - 4..]
    ensures Censored(Some(a)) == Censored(Some(b))
    ensures |Censored(Some(a)).value| == |Censored(Some(b)).value| == 11
  {
    assert Truthy(Some(a)) && Truthy(Some(b));
  }
}
