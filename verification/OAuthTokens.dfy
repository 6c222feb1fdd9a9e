/** The external token and the STS token exchanged for it: how long each is used, when it is
    replaced, and what the provider asks of the issuers. Times and durations are in nanoseconds. */
module OAuthTokens {
  import opened Wrappers
  import opened GoNumbers

  // Three minutes, one minute, and a hundred years of 365 days.
  const EXTERNAL_BUFFER: int := 180_000_000_000
  const STS_BUFFER: int := 60_000_000_000
  const CENTURY: int := 3_153_600_000_000_000_000

  /** `time.Second` times a number of seconds, before any wrap-around. */
  function Nanos(seconds: int): int {
    seconds * 1_000_000_000
  }

  // ---- Tokens and responses ----

  /** `validUntil` is absent when the response had no `expires_in`: the zero time. */
  datatype ExternalToken = ExternalToken(
    accessToken: string, tokenType: string, expiresInSeconds: string, validUntil: Option<int>,
    scope: string, identityPoolId: string, tokenUrl: string, clientId: string, clientSecret: string)

  datatype STSToken = STSToken(
    accessToken: string, tokenType: string, issuedTokenType: string, expiresInSeconds: string,
    validUntil: Option<int>, identityPoolId: string)

  /** The JSON number of `expires_in` and the text the `%v` verb prints for it. */
  datatype JsonExpiry = JsonExpiry(number: real, shown: string)

  datatype ExternalResponse = ExternalResponse(
    accessToken: Option<string>, tokenType: Option<string>, expiresIn: Option<JsonExpiry>)

  datatype STSResponse = STSResponse(accessToken: string, tokenType: string, issuedTokenType: string, expiresIn: int32)

  /** What an issuer answers, and the provider's clock when the answer is in. */
  datatype Reply<T> = Reply(body: Result<T, OAuthError>, receivedAt: int)

  datatype OAuthError = RequestFailed | BadExpirySetting

  /** Truncation toward zero, as Go converts a float to an integer. */
  function Truncate(x: real): (t: int)
    ensures x >= 0.0 ==> 0.0 <= t as real <= x < t as real + 1.0
    ensures x <= 0.0 ==> t as real - 1.0 < x <= t as real <= 0.0
  {
    if x >= 0.0 then x.Floor else -((-x).Floor)
  }

  /** The lifetime counted for a number of seconds; the product is a 64-bit one. */
  function Counted(seconds: int): int {
    Wrap64(Nanos(seconds))
  }

  /** The part of the lifetime kept back: the buffer, or half of a lifetime within the buffer. */
  function Reserve(lifetime: int, buffer: int): int {
    if lifetime <= buffer then Half(lifetime) else buffer
  }

  /** How long after its receipt a token is used. */
  function Usable(seconds: int, buffer: int): int {
    Counted(seconds) - Reserve(Counted(seconds), buffer)
  }

  /** A token is used up to and including its last instant. */
  predicate InUse(validUntil: Option<int>, now: int) {
    validUntil.Some? && now <= validUntil.value
  }

  // ---- What the steps do ----

  function TokenFrom(body: ExternalResponse, now: int, scope: string, identityPoolId: string,
                     tokenUrl: string, clientId: string, clientSecret: string): ExternalToken
  {
    ExternalToken(
      if body.accessToken.Some? then body.accessToken.value else "",
      if body.tokenType.Some? then body.tokenType.value else "",
      if body.expiresIn.Some? then body.expiresIn.value.shown else "",
      if body.expiresIn.Some? then Some(now + Usable(Truncate(body.expiresIn.value.number), EXTERNAL_BUFFER)) else None,
      scope, identityPoolId, tokenUrl, clientId, clientSecret)
  }

  function STSTokenFrom(resp: STSResponse, now: int, identityPoolId: string): STSToken {
    STSToken(resp.accessToken, resp.tokenType, resp.issuedTokenType, Itoa(resp.expiresIn),
             Some(now + Usable(resp.expiresIn, STS_BUFFER)), identityPoolId)
  }

  /** A fetch keeps a token in use; otherwise it asks for a new one with the old one's settings,
      and keeps the old one when that fails. */
  function ExternalStep(t: ExternalToken, now: int, reply: Reply<ExternalResponse>)
    : (ExternalToken, Result<string, OAuthError>)
  {
    if InUse(t.validUntil, now) then (t, Ok(t.accessToken))
    else
      match reply.body
      case Err(e) => (t, Err(e))
      case Ok(body) =>
        var t' := TokenFrom(body, reply.receivedAt, t.scope, t.identityPoolId, t.tokenUrl, t.clientId, t.clientSecret);
        (t', Ok(t'.accessToken))
  }

  /** The request that trades an external token for an STS token. */
  datatype Exchange = Exchange(subject: string, identityPoolId: string, expiresIn: Option<int32>)

  /** `expires_in` is passed on when set, and must then be a 32-bit decimal. */
  function ExchangeFor(subject: string, identityPoolId: string, expiredIn: string): Result<Exchange, OAuthError> {
    if expiredIn == "" then Ok(Exchange(subject, identityPoolId, None))
    else
      match ParseInt32(expiredIn)
      case None => Err(BadExpirySetting)
      case Some(n) => Ok(Exchange(subject, identityPoolId, Some(n)))
  }

  /** One call that needs an STS token: the two clock readings and the answers that may be asked for. */
  datatype Call = Call(stsNow: int, externalNow: int, external: Reply<ExternalResponse>, sts: Reply<STSResponse>)

  /** Both tokens after a call, and the exchange that was sent, if any. */
  datatype STSOutcome = STSOutcome(
    external: ExternalToken, sts: STSToken, sent: Option<Exchange>, result: Result<string, OAuthError>)

  function ExchangeStep(external: ExternalToken, sts: STSToken, reply: Reply<STSResponse>): STSOutcome {
    match ExchangeFor(external.accessToken, sts.identityPoolId, sts.expiresInSeconds)
    case Err(e) => STSOutcome(external, sts, None, Err(e))
    case Ok(exchange) =>
      match reply.body
      case Err(e) => STSOutcome(external, sts, Some(exchange), Err(e))
      case Ok(resp) =>
        var sts' := STSTokenFrom(resp, reply.receivedAt, sts.identityPoolId);
        STSOutcome(external, sts', Some(exchange), Ok(sts'.accessToken))
  }

  function STSStep(external: ExternalToken, sts: STSToken, call: Call): STSOutcome {
    if InUse(sts.validUntil, call.stsNow) then STSOutcome(external, sts, None, Ok(sts.accessToken))
    else
      var (external', got) := ExternalStep(external, call.externalNow, call.external);
      match got
      case Err(e) => STSOutcome(external, sts, None, Err(e))
      case Ok(_) => ExchangeStep(external', sts, call.sts)
  }

  // ---- Reading responses ----

  method ParseExternalResponse(body: ExternalResponse, now: int, scope: string, identityPoolId: string,
                               tokenUrl: string, clientId: string, clientSecret: string)
    returns (t: ExternalToken)
    ensures t == TokenFrom(body, now, scope, identityPoolId, tokenUrl, clientId, clientSecret)
  {
    t := ExternalToken("", "", "", None, scope, identityPoolId, tokenUrl, clientId, clientSecret);
    if body.accessToken.Some? {
      t := t.(accessToken := body.accessToken.value);
    }
    if body.tokenType.Some? {
      t := t.(tokenType := body.tokenType.value);
    }
    if body.expiresIn.Some? {
      t := t.(expiresInSeconds := body.expiresIn.value.shown);
      var expiry := Wrap64(Nanos(Truncate(body.expiresIn.value.number)));
      var buffer := EXTERNAL_BUFFER;
      if expiry <= buffer {
        buffer := Half(expiry);
      }
      t := t.(validUntil := Some(now + (expiry - buffer)));
    }
  }

  method ParseSTSResponse(resp: STSResponse, now: int, identityPoolId: string) returns (t: STSToken)
    ensures t == STSTokenFrom(resp, now, identityPoolId)
  {
    t := STSToken("", "", "", "", None, "");
    t := t.(expiresInSeconds := Itoa(resp.expiresIn));
    t := t.(accessToken := resp.accessToken);
    t := t.(tokenType := resp.tokenType);
    t := t.(issuedTokenType := resp.issuedTokenType);
    var expiry := Wrap64(Nanos(resp.expiresIn));
    var buffer := STS_BUFFER;
    if expiry <= buffer {
      buffer := Half(expiry);
    }
    t := t.(validUntil := Some(now + (expiry - buffer)));
    t := t.(identityPoolId := identityPoolId);
  }

  method RequestNewSTS(subject: string, identityPoolId: string, expiredIn: string, reply: Reply<STSResponse>)
    returns (sent: Option<Exchange>, r: Result<STSToken, OAuthError>)
    ensures match ExchangeFor(subject, identityPoolId, expiredIn)
            case Err(e) => sent == None && r == Err(e)
            case Ok(exchange) =>
              sent == Some(exchange)
              && r == match reply.body
                      case Err(e) => Err(e)
                      case Ok(resp) => Ok(STSTokenFrom(resp, reply.receivedAt, identityPoolId))
  {
    var request := Exchange(subject, identityPoolId, None);
    if expiredIn != "" {
      var n := ParseInt32(expiredIn);
      if n.None? {
        return None, Err(BadExpirySetting);
      }
      request := request.(expiresIn := n);
    }
    sent := Some(request);
    if reply.body.Err? {
      return sent, Err(reply.body.error);
    }
    var t := ParseSTSResponse(reply.body.value, reply.receivedAt, identityPoolId);
    r := Ok(t);
  }

  /** The provider's client, holding the current pair of tokens. */
  class Client {
    var oauthToken: ExternalToken
    var stsToken: STSToken

    constructor (oauthToken: ExternalToken, stsToken: STSToken)
      ensures this.oauthToken == oauthToken && this.stsToken == stsToken
    {
      this.oauthToken := oauthToken;
      this.stsToken := stsToken;
    }

    method FetchExternal(now: int, reply: Reply<ExternalResponse>) returns (r: Result<string, OAuthError>)
      modifies this`oauthToken
      ensures (oauthToken, r) == ExternalStep(old(oauthToken), now, reply)
    {
      var t := oauthToken;
      if InUse(t.validUntil, now) {
        return Ok(t.accessToken);
      }
      if reply.body.Err? {
        return Err(reply.body.error);
      }
      oauthToken := ParseExternalResponse(reply.body.value, reply.receivedAt, t.scope, t.identityPoolId,
                                          t.tokenUrl, t.clientId, t.clientSecret);
      return Ok(oauthToken.accessToken);
    }

    method FetchSTS(call: Call) returns (sent: Option<Exchange>, r: Result<string, OAuthError>)
      modifies this
      ensures STSOutcome(oauthToken, stsToken, sent, r) == STSStep(old(oauthToken), old(stsToken), call)
    {
      sent := None;
      if InUse(stsToken.validUntil, call.stsNow) {
        return None, Ok(stsToken.accessToken);
      }
      if !InUse(oauthToken.validUntil, call.externalNow) {
        if call.external.body.Err? {
          return None, Err(call.external.body.error);
        }
        oauthToken := ParseExternalResponse(call.external.body.value, call.external.receivedAt, oauthToken.scope,
                                            oauthToken.identityPoolId, oauthToken.tokenUrl, oauthToken.clientId,
                                            oauthToken.clientSecret);
      }
      var t;
      sent, t := RequestNewSTS(oauthToken.accessToken, stsToken.identityPoolId, stsToken.expiresInSeconds, call.sts);
      if t.Err? {
        return sent, Err(t.error);
      }
      stsToken := t.value;
      return sent, Ok(stsToken.accessToken);
    }
  }

  // ---- The first tokens ----

  /** The OAuth block of the provider configuration. */
  datatype OAuthBlock = OAuthBlock(
    externalToken: string, identityPoolId: string, clientId: string, clientSecret: string,
    tokenUrl: string, scope: string, stsExpiresIn: string)

  /** The external token a provider starts with: one fetched from the identity provider, or the
      static one of the configuration, held valid for a century. */
  function InitialExternal(b: OAuthBlock, now: int, reply: Reply<ExternalResponse>): Result<ExternalToken, OAuthError> {
    if b.externalToken == "" then
      match reply.body
      case Err(e) => Err(e)
      case Ok(body) =>
        Ok(TokenFrom(body, reply.receivedAt, b.scope, b.identityPoolId, b.tokenUrl, b.clientId, b.clientSecret))
    else Ok(ExternalToken(b.externalToken, "", "", Some(now + CENTURY), "", b.identityPoolId, "", "", ""))
  }

  /** The first pair of tokens; on any failure there is none. */
  function Initial(b: OAuthBlock, now: int, external: Reply<ExternalResponse>, sts: Reply<STSResponse>)
    : Result<(ExternalToken, STSToken), OAuthError>
  {
    match InitialExternal(b, now, external)
    case Err(e) => Err(e)
    case Ok(t) =>
      match ExchangeFor(t.accessToken, b.identityPoolId, b.stsExpiresIn)
      case Err(e) => Err(e)
      case Ok(_) =>
        match sts.body
        case Err(e) => Err(e)
        case Ok(resp) => Ok((t, STSTokenFrom(resp, sts.receivedAt, b.identityPoolId)))
  }

  method Initialize(b: OAuthBlock, now: int, external: Reply<ExternalResponse>, sts: Reply<STSResponse>)
    returns (r: Result<(ExternalToken, STSToken), OAuthError>)
    ensures r == Initial(b, now, external, sts)
  {
    var oauthToken: ExternalToken;
    if b.externalToken == "" {
      if external.body.Err? {
        return Err(external.body.error);
      }
      oauthToken := ParseExternalResponse(external.body.value, external.receivedAt, b.scope, b.identityPoolId,
                                          b.tokenUrl, b.clientId, b.clientSecret);
    } else {
      oauthToken := ExternalToken(b.externalToken, "", "", Some(now + CENTURY), "", b.identityPoolId, "", "", "");
    }
    var _, stsToken := RequestNewSTS(oauthToken.accessToken, b.identityPoolId, b.stsExpiresIn, sts);
    if stsToken.Err? {
      return Err(stsToken.error);
    }
    return Ok((oauthToken, stsToken.value));
  }
}
