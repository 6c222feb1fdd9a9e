/** The lease machine carried over to whole lives of the two tokens: from the first pair a provider
    obtains, through any run of calls. */
module OAuthLives {
  import opened Wrappers
  import opened GoNumbers
  import opened OAuthTokens
  import opened OAuthRuns

  /** The grant held at the end of a run of the lease machine. */
  function Last(g: Grant, fetches: seq<Fetch>, buffer: int): Grant
    decreases |fetches|
  {
    if fetches == [] then g else Last(Step(g, fetches[0], buffer).0, fetches[1..], buffer)
  }

  /** A fetch fails exactly where the lease machine hands out nothing. */
  predicate EndAlike(results: seq<Result<string, OAuthError>>, handed: seq<Handed>) {
    |results| == |handed| && forall i :: 0 <= i < |results| ==> (results[i].Err? <==> handed[i].Nothing?)
  }

  lemma SameEnds(r: Result<string, OAuthError>, results: seq<Result<string, OAuthError>>, h: Handed,
                 handed: seq<Handed>)
    requires EndAlike(results, handed) && (r.Err? <==> h.Nothing?)
    ensures EndAlike([r] + results, [h] + handed)
  {
  }

  // ---- The external token ----

  function ExternalLease(fetches: seq<ExternalFetch>): (lease: seq<Fetch>)
    ensures |lease| == |fetches|
    ensures forall i :: 0 <= i < |lease| ==> lease[i] == Fetch(fetches[i].now, GrantOf(fetches[i]))
  {
    seq(|fetches|, i requires 0 <= i < |fetches| => Fetch(fetches[i].now, GrantOf(fetches[i])))
  }

  /** What each fetch of a run returns. */
  function ExternalResults(t: ExternalToken, fetches: seq<ExternalFetch>): (results: seq<Result<string, OAuthError>>)
    ensures |results| == |fetches|
    decreases |fetches|
  {
    if fetches == [] then []
    else
      var (t', r) := ExternalStep(t, fetches[0].now, fetches[0].reply);
      [r] + ExternalResults(t', fetches[1..])
  }

  /** The fetches of a run that asked the issuer and were answered. */
  function ExternalAnswered(t: ExternalToken, fetches: seq<ExternalFetch>): seq<ExternalFetch>
    decreases |fetches|
  {
    if fetches == [] then []
    else
      var f := fetches[0];
      (if !InUse(t.validUntil, f.now) && f.reply.body.Ok? then [f] else [])
      + ExternalAnswered(ExternalStep(t, f.now, f.reply).0, fetches[1..])
  }

  /** Any run of fetches of the external token is a run of the lease machine: what is held at the end,
      which fetches return a token, and which answers were taken. */
  lemma {:induction false} ExternalRunIsALease(t: ExternalToken, g: Grant, fetches: seq<ExternalFetch>)
    requires t.validUntil == ValidUntil(g, EXTERNAL_BUFFER)
    ensures var lease := ExternalLease(fetches);
            var handed, obtained := Hand(g, lease, EXTERNAL_BUFFER), Obtained(g, lease, EXTERNAL_BUFFER);
            var results, answered := ExternalResults(t, fetches), ExternalAnswered(t, fetches);
            && RunExternal(t, fetches).validUntil == ValidUntil(Last(g, lease, EXTERNAL_BUFFER), EXTERNAL_BUFFER)
            && EndAlike(results, handed)
            && |answered| == |obtained|
            && (forall i :: 0 <= i < |answered| ==> GrantOf(answered[i]) == Some(obtained[i]))
    decreases |fetches|
  {
    if fetches != [] {
      var f := fetches[0];
      ExternalIsALease(t, f.now, f.reply, f.issuedAt, g);
      var (g', h) := Step(g, Fetch(f.now, GrantOf(f)), EXTERNAL_BUFFER);
      assert ExternalLease(fetches)[1..] == ExternalLease(fetches[1..]);
      var (t', r) := ExternalStep(t, f.now, f.reply);
      ExternalRunIsALease(t', g', fetches[1..]);
      var rest := ExternalLease(fetches[1..]);
      assert ExternalResults(t, fetches) == [r] + ExternalResults(t', fetches[1..]);
      assert Hand(g, ExternalLease(fetches), EXTERNAL_BUFFER) == [h] + Hand(g', rest, EXTERNAL_BUFFER);
      SameEnds(r, ExternalResults(t', fetches[1..]), h, Hand(g', rest, EXTERNAL_BUFFER));
    }
  }

  predicate OrdinaryReply(f: ExternalFetch) {
    GrantOf(f).Some? ==> Ordinary(GrantOf(f).value)
  }

  /** So the issuer of the external token is asked, with an answer, less often than every half second. */
  lemma ExternalRequestsAreBounded(clock: int, t: ExternalToken, g: Grant, fetches: seq<ExternalFetch>)
    requires t.validUntil == ValidUntil(g, EXTERNAL_BUFFER) && Ordinary(g)
    requires WellTimed(clock, g, ExternalLease(fetches), EXTERNAL_BUFFER)
    requires forall f :: f in fetches ==> OrdinaryReply(f)
    ensures var answered := ExternalAnswered(t, fetches);
            answered != [] ==>
              Nanos(|answered|) < 2 * (answered[|answered| - 1].reply.receivedAt - g.receivedAt)
  {
    ExternalRunIsALease(t, g, fetches);
    var lease := ExternalLease(fetches);
    forall i | 0 <= i < |lease| && lease[i].reply.Some? ensures Ordinary(lease[i].reply.value)
    {
      assert OrdinaryReply(fetches[i]);
    }
    RequestsAreBounded(clock, g, lease, EXTERNAL_BUFFER);
  }

  // ---- The STS token ----

  function STSLease(external: ExternalToken, sts: STSToken, fetches: seq<STSFetch>): seq<Fetch>
    decreases |fetches|
  {
    if fetches == [] then []
    else
      var f := fetches[0];
      var out := STSStep(external, sts, f.call);
      [Fetch(f.call.stsNow, STSGrant(external, sts, f.call, f.stsIssuedAt))]
      + STSLease(out.external, out.sts, fetches[1..])
  }

  function STSResults(external: ExternalToken, sts: STSToken, fetches: seq<STSFetch>)
    : (results: seq<Result<string, OAuthError>>)
    ensures |results| == |fetches|
    decreases |fetches|
  {
    if fetches == [] then []
    else
      var out := STSStep(external, sts, fetches[0].call);
      [out.result] + STSResults(out.external, out.sts, fetches[1..])
  }

  /** The calls of a run whose exchange was sent and answered. */
  function STSAnswered(external: ExternalToken, sts: STSToken, fetches: seq<STSFetch>): seq<STSFetch>
    decreases |fetches|
  {
    if fetches == [] then []
    else
      var out := STSStep(external, sts, fetches[0].call);
      (if out.sent.Some? && out.result.Ok? then [fetches[0]] else [])
      + STSAnswered(out.external, out.sts, fetches[1..])
  }

  /** Likewise for the STS token, whatever the external token goes through meanwhile: what is held and
      which calls return a token, */
  lemma {:induction false} STSRunIsALease(external: ExternalToken, sts: STSToken, g: Grant, fetches: seq<STSFetch>)
    requires sts.validUntil == ValidUntil(g, STS_BUFFER)
    ensures var lease := STSLease(external, sts, fetches);
            var results, handed := STSResults(external, sts, fetches), Hand(g, lease, STS_BUFFER);
            && RunSTS(external, sts, fetches).1.validUntil == ValidUntil(Last(g, lease, STS_BUFFER), STS_BUFFER)
            && EndAlike(results, handed)
    decreases |fetches|
  {
    if fetches != [] {
      var f := fetches[0];
      STSIsALease(external, sts, f.call, f.stsIssuedAt, g);
      var out := STSStep(external, sts, f.call);
      var first := Fetch(f.call.stsNow, STSGrant(external, sts, f.call, f.stsIssuedAt));
      var (g', h) := Step(g, first, STS_BUFFER);
      hide STSStep, STSGrant, ValidUntil, Step, EndAlike;
      STSRunIsALease(out.external, out.sts, g', fetches[1..]);
      var lease, rest := STSLease(external, sts, fetches), STSLease(out.external, out.sts, fetches[1..]);
      assert lease == [first] + rest;
      assert lease[1..] == rest;
      var results := STSResults(out.external, out.sts, fetches[1..]);
      assert STSResults(external, sts, fetches) == [out.result] + results;
      assert Hand(g, lease, STS_BUFFER) == [h] + Hand(g', rest, STS_BUFFER);
      SameEnds(out.result, results, h, Hand(g', rest, STS_BUFFER));
    }
  }

  /** and which answers were taken. */
  lemma {:induction false} STSAnswersAreObtained(external: ExternalToken, sts: STSToken, g: Grant,
                                                 fetches: seq<STSFetch>)
    requires sts.validUntil == ValidUntil(g, STS_BUFFER)
    ensures var obtained := Obtained(g, STSLease(external, sts, fetches), STS_BUFFER);
            var answered := STSAnswered(external, sts, fetches);
            && |answered| == |obtained|
            && (forall i :: 0 <= i < |answered| ==> IssuedSTS(answered[i]) == Some(obtained[i]))
    decreases |fetches|
  {
    if fetches != [] {
      var f := fetches[0];
      STSIsALease(external, sts, f.call, f.stsIssuedAt, g);
      var out := STSStep(external, sts, f.call);
      var first := Fetch(f.call.stsNow, STSGrant(external, sts, f.call, f.stsIssuedAt));
      var (g', h) := Step(g, first, STS_BUFFER);
      assert h.Fresh? ==> IssuedSTS(f) == Some(h.g);
      hide STSStep, STSGrant, IssuedSTS, ValidUntil, Step;
      STSAnswersAreObtained(out.external, out.sts, g', fetches[1..]);
      var lease, rest := STSLease(external, sts, fetches), STSLease(out.external, out.sts, fetches[1..]);
      assert lease == [first] + rest;
      assert lease[1..] == rest;
      assert Obtained(g, lease, STS_BUFFER) == (if h.Fresh? then [h.g] else []) + Obtained(g', rest, STS_BUFFER);
    }
  }

  lemma {:induction false} STSLeaseReplies(external: ExternalToken, sts: STSToken, fetches: seq<STSFetch>)
    ensures forall f :: f in STSLease(external, sts, fetches) && f.reply.Some? ==>
              exists e :: e in fetches && IssuedSTS(e) == f.reply
    decreases |fetches|
  {
    if fetches != [] {
      var f := fetches[0];
      var out := STSStep(external, sts, f.call);
      var first := STSGrant(external, sts, f.call, f.stsIssuedAt);
      assert f in fetches && (first.Some? ==> IssuedSTS(f) == first);
      hide STSStep, STSGrant, IssuedSTS;
      STSLeaseReplies(out.external, out.sts, fetches[1..]);
    }
  }

  predicate OrdinaryExchange(f: STSFetch) {
    IssuedSTS(f).Some? ==> Ordinary(IssuedSTS(f).value)
  }

  lemma STSRequestsAreBounded(clock: int, external: ExternalToken, sts: STSToken, g: Grant, fetches: seq<STSFetch>)
    requires sts.validUntil == ValidUntil(g, STS_BUFFER) && Ordinary(g)
    requires WellTimed(clock, g, STSLease(external, sts, fetches), STS_BUFFER)
    requires forall f :: f in fetches ==> OrdinaryExchange(f)
    ensures var answered := STSAnswered(external, sts, fetches);
            answered != [] ==>
              Nanos(|answered|) < 2 * (answered[|answered| - 1].call.sts.receivedAt - g.receivedAt)
  {
    STSAnswersAreObtained(external, sts, g, fetches);
    STSLeaseReplies(external, sts, fetches);
    var lease := STSLease(external, sts, fetches);
    forall f | f in lease && f.reply.Some? ensures Ordinary(f.reply.value)
    {
      var e :| e in fetches && IssuedSTS(e) == f.reply;
      assert OrdinaryExchange(e);
    }
    RequestsAreBounded(clock, g, lease, STS_BUFFER);
  }

  // ---- What exchanges present ----

  function AsExternal(f: STSFetch): ExternalFetch {
    ExternalFetch(f.call.externalNow, f.call.external, f.externalIssuedAt)
  }

  /** The token is the one a run started with, or one answered in the run, under its own grant. */
  predicate Held(t: ExternalToken, h: Grant, external: ExternalToken, g: Grant, fetches: seq<STSFetch>) {
    (t == external && h == g) || exists f :: f in fetches && ExternalFrom(t, h, AsExternal(f))
  }

  lemma CallHolds(external: ExternalToken, sts: STSToken, g: Grant, f: STSFetch) returns (h: Grant)
    requires external.validUntil == ValidUntil(g, EXTERNAL_BUFFER) && Prompt(g, EXTERNAL_BUFFER)
    requires PromptReply(AsExternal(f))
    ensures var out := STSStep(external, sts, f.call);
            && out.external.validUntil == ValidUntil(h, EXTERNAL_BUFFER) && Prompt(h, EXTERNAL_BUFFER)
            && ((out.external == external && h == g) || ExternalFrom(out.external, h, AsExternal(f)))
            && out.sts.identityPoolId == sts.identityPoolId
  {
    hide Usable, Prompt;
    h := if STSStep(external, sts, f.call).external == external then g else GrantOf(AsExternal(f)).value;
  }

  lemma {:induction false} ExternalIsHeld(external: ExternalToken, sts: STSToken, g: Grant, fetches: seq<STSFetch>)
    returns (h: Grant)
    requires external.validUntil == ValidUntil(g, EXTERNAL_BUFFER) && Prompt(g, EXTERNAL_BUFFER)
    requires forall f :: f in fetches ==> PromptReply(AsExternal(f))
    ensures var (t, s) := RunSTS(external, sts, fetches);
            && t.validUntil == ValidUntil(h, EXTERNAL_BUFFER) && Prompt(h, EXTERNAL_BUFFER)
            && Held(t, h, external, g, fetches) && s.identityPoolId == sts.identityPoolId
    decreases |fetches|
  {
    h := g;
    if fetches != [] {
      hide STSStep, ValidUntil, Prompt, ExternalFrom;
      var f := fetches[0];
      assert f in fetches;
      var out := STSStep(external, sts, f.call);
      var g' := CallHolds(external, sts, g, f);
      h := ExternalIsHeld(out.external, out.sts, g', fetches[1..]);
    }
  }

  /** Over any run, an exchange is sent only when the STS token is used up, and it presents a token
      obtained in that very call, or one held since before that has not expired at its issuer,
      provided the external issuer answered promptly. */
  lemma ExchangePresentsALiveToken(external: ExternalToken, sts: STSToken, g: Grant, fetches: seq<STSFetch>,
                                   last: STSFetch)
    requires external.validUntil == ValidUntil(g, EXTERNAL_BUFFER) && Prompt(g, EXTERNAL_BUFFER)
    requires forall f :: f in fetches ==> PromptReply(AsExternal(f))
    ensures var (t, s) := RunSTS(external, sts, fetches);
            var out := STSStep(t, s, last.call);
            out.sent.Some? ==>
              && !InUse(s.validUntil, last.call.stsNow)
              && out.sent.value.identityPoolId == sts.identityPoolId
              && out.sent.value.subject == out.external.accessToken
              && (|| (exists h :: ExternalFrom(out.external, h, AsExternal(last)))
                  || (exists h :: Held(out.external, h, external, g, fetches)
                                  && h.seconds.Some? && last.call.externalNow < Expiry(h)))
  {
    var h := ExternalIsHeld(external, sts, g, fetches);
    var (t, s) := RunSTS(external, sts, fetches);
    if !InUse(t.validUntil, last.call.externalNow) && last.call.external.body.Ok? {
      var t' := ExternalStep(t, last.call.externalNow, last.call.external).0;
      assert ExternalFrom(t', GrantOf(AsExternal(last)).value, AsExternal(last));
    }
  }

  // ---- From the first pair of tokens on ----

  /** The settings a new external token is asked for with. */
  predicate AsksAs(t: ExternalToken, clientId: string, clientSecret: string, tokenUrl: string, scope: string) {
    t.clientId == clientId && t.clientSecret == clientSecret && t.tokenUrl == tokenUrl && t.scope == scope
  }

  lemma {:induction false} SettingsStay(external: ExternalToken, sts: STSToken, fetches: seq<STSFetch>)
    ensures var (t, s) := RunSTS(external, sts, fetches);
            && AsksAs(t, external.clientId, external.clientSecret, external.tokenUrl, external.scope)
            && t.identityPoolId == external.identityPoolId && s.identityPoolId == sts.identityPoolId
    decreases |fetches|
  {
    if fetches != [] {
      var out := STSStep(external, sts, fetches[0].call);
      SettingsStay(out.external, out.sts, fetches[1..]);
    }
  }

  /** Over the whole life of a provider both tokens are asked for with the settings of its OAuth block,
      and a static token with none. */
  lemma ConfiguredSettingsStay(b: OAuthBlock, first: STSFetch, fetches: seq<STSFetch>)
    requires Initial(b, first.call.externalNow, first.call.external, first.call.sts).Ok?
    ensures var (t, s) := Initial(b, first.call.externalNow, first.call.external, first.call.sts).value;
            var (t', s') := RunSTS(t, s, fetches);
            && t'.identityPoolId == b.identityPoolId && s'.identityPoolId == b.identityPoolId
            && (if b.externalToken == "" then AsksAs(t', b.clientId, b.clientSecret, b.tokenUrl, b.scope)
                else AsksAs(t', "", "", "", ""))
  {
    var (t, s) := Initial(b, first.call.externalNow, first.call.external, first.call.sts).value;
    SettingsStay(t, s, fetches);
  }

  /** What the provider starts with: an STS token under the grant just issued, whose lifetime it will
      ask for next, and an external token under its grant, or the static one for a century. */
  lemma FirstTokensAreLeases(b: OAuthBlock, first: STSFetch)
    requires Initial(b, first.call.externalNow, first.call.external, first.call.sts).Ok?
    ensures var (t, s) := Initial(b, first.call.externalNow, first.call.external, first.call.sts).value;
            var granted := GrantOf(AsExternal(first));
            && IssuedSTS(first).Some? && s.validUntil == ValidUntil(IssuedSTS(first).value, STS_BUFFER)
            && s.expiresInSeconds == Itoa(first.call.sts.body.value.expiresIn)
            && (b.externalToken == "" ==> granted.Some? && t.validUntil == ValidUntil(granted.value, EXTERNAL_BUFFER))
            && (b.externalToken != "" ==> t.accessToken == b.externalToken
                                          && t.validUntil == Some(first.call.externalNow + CENTURY))
  {
  }

  /** The whole life of a provider's STS token, from initialization through any run of calls with
      prompt answers of at least a second: it is never used past its issuer's expiry, every exchange
      asks for the lifetime granted last, and exchanges are answered less often than every half second. */
  lemma LifeOfSTSToken(b: OAuthBlock, first: STSFetch, fetches: seq<STSFetch>, clock: int) returns (held: Grant)
    requires Initial(b, first.call.externalNow, first.call.external, first.call.sts).Ok?
    requires forall f :: f in [first] + fetches ==> PromptExchange(f) && OrdinaryExchange(f)
    requires var (t, s) := Initial(b, first.call.externalNow, first.call.external, first.call.sts).value;
             WellTimed(clock, IssuedSTS(first).value, STSLease(t, s, fetches), STS_BUFFER)
    ensures var (t, s) := Initial(b, first.call.externalNow, first.call.external, first.call.sts).value;
            var answered := STSAnswered(t, s, fetches);
            var s' := RunSTS(t, s, fetches).1;
            && (exists f :: f in [first] + fetches && STSFrom(s', held, f))
            && (forall now :: InUse(s'.validUntil, now) ==> held.seconds.Some? && now < Expiry(held))
            && AskForLastGrant(Entries(t, s, Calls(fetches)), first.call.sts.body.value.expiresIn)
            && (answered != [] ==>
                  Nanos(|answered|) < 2 * (answered[|answered| - 1].call.sts.receivedAt - first.call.sts.receivedAt))
  {
    FirstTokensAreLeases(b, first);
    var (t, s) := Initial(b, first.call.externalNow, first.call.external, first.call.sts).value;
    var g := IssuedSTS(first).value;
    assert first in [first] + fetches && PromptExchange(first) && OrdinaryExchange(first);
    held := STSTokenIsLive(t, s, g, fetches);
    var s' := RunSTS(t, s, fetches).1;
    if s' == s && held == g {
      assert STSFrom(s', held, first);
    } else {
      var f :| f in fetches && STSFrom(s', held, f);
      assert f in [first] + fetches;
    }
    ExchangesAskForLastGrant(t, s, Calls(fetches), first.call.sts.body.value.expiresIn);
    STSRequestsAreBounded(clock, t, s, g, fetches);
  }

  function Calls(fetches: seq<STSFetch>): seq<Call> {
    seq(|fetches|, i requires 0 <= i < |fetches| => fetches[i].call)
  }

  /** Likewise for an external token fetched from its issuer. */
  lemma LifeOfExternalToken(b: OAuthBlock, first: STSFetch, fetches: seq<ExternalFetch>, clock: int)
    returns (held: Grant)
    requires Initial(b, first.call.externalNow, first.call.external, first.call.sts).Ok? && b.externalToken == ""
    requires forall f :: f in [AsExternal(first)] + fetches ==> PromptReply(f) && OrdinaryReply(f)
    requires WellTimed(clock, GrantOf(AsExternal(first)).value, ExternalLease(fetches), EXTERNAL_BUFFER)
    ensures var t := Initial(b, first.call.externalNow, first.call.external, first.call.sts).value.0;
            var answered := ExternalAnswered(t, fetches);
            var t' := RunExternal(t, fetches);
            && (exists f :: f in [AsExternal(first)] + fetches && ExternalFrom(t', held, f))
            && (forall now :: InUse(t'.validUntil, now) ==> held.seconds.Some? && now < Expiry(held))
            && (answered != [] ==>
                  Nanos(|answered|)
                  < 2 * (answered[|answered| - 1].reply.receivedAt - first.call.external.receivedAt))
  {
    FirstTokensAreLeases(b, first);
    var t := Initial(b, first.call.externalNow, first.call.external, first.call.sts).value.0;
    var start := AsExternal(first);
    var g := GrantOf(start).value;
    assert start in [start] + fetches && PromptReply(start) && OrdinaryReply(start);
    held := ExternalTokenIsLive(t, g, fetches);
    var t' := RunExternal(t, fetches);
    if t' == t && held == g {
      assert ExternalFrom(t', held, start);
    } else {
      var f :| f in fetches && ExternalFrom(t', held, f);
      assert f in [start] + fetches;
    }
    ExternalRequestsAreBounded(clock, t, g, fetches);
  }
}
