/** Whole runs of token fetches: no token outlives its issuer's promise, requests are bounded in
    rate, and what is asked of the STS issuer. */
module OAuthRuns {
  import opened Wrappers
  import opened GoNumbers
  import opened OAuthTokens

  // ---- Leases: what both tokens have in common ----

  /** A token as its issuer knows it: promised for a number of seconds from the time of issue. */
  datatype Grant = Grant(seconds: Option<int>, issuedAt: int, receivedAt: int)

  function ValidUntil(g: Grant, buffer: int): Option<int> {
    if g.seconds.Some? then Some(g.receivedAt + Usable(g.seconds.value, buffer)) else None
  }

  /** The issuer's own expiry. */
  function Expiry(g: Grant): int
    requires g.seconds.Some?
  {
    g.issuedAt + Nanos(g.seconds.value)
  }

  datatype Fetch = Fetch(now: int, reply: Option<Grant>)

  datatype Handed = FromCache(g: Grant) | Fresh(g: Grant) | Nothing

  function Step(g: Grant, f: Fetch, buffer: int): (Grant, Handed) {
    if InUse(ValidUntil(g, buffer), f.now) then (g, FromCache(g))
    else
      match f.reply
      case None => (g, Nothing)
      case Some(h) => (h, Fresh(h))
  }

  /** What each fetch of a run hands out. */
  function Hand(g: Grant, fetches: seq<Fetch>, buffer: int): (handed: seq<Handed>)
    ensures |handed| == |fetches|
    decreases |fetches|
  {
    if fetches == [] then []
    else
      var (g', h) := Step(g, fetches[0], buffer);
      [h] + Hand(g', fetches[1..], buffer)
  }

  /** The grants obtained in a run, in order. */
  function Obtained(g: Grant, fetches: seq<Fetch>, buffer: int): seq<Grant>
    decreases |fetches|
  {
    if fetches == [] then []
    else
      var (g', h) := Step(g, fetches[0], buffer);
      (if h.Fresh? then [h.g] else []) + Obtained(g', fetches[1..], buffer)
  }

  /** The answer came within the part of the lifetime that is kept back. */
  predicate Prompt(g: Grant, buffer: int) {
    g.seconds.Some? ==>
      g.seconds.value > 0 && g.receivedAt - g.issuedAt < Reserve(Counted(g.seconds.value), buffer)
  }

  /** Being prompt is exactly what keeps every use of a token strictly before its expiry. */
  lemma PromptnessIsExact(g: Grant, buffer: int)
    requires g.seconds.Some? && g.seconds.value > 0 && FitsInt64(Nanos(g.seconds.value))
    ensures Prompt(g, buffer) <==> forall now :: InUse(ValidUntil(g, buffer), now) ==> now < Expiry(g)
  {
    assert InUse(ValidUntil(g, buffer), ValidUntil(g, buffer).value);
  }

  /** Over any run, a token handed out from the cache has not expired at its issuer, whatever the
      lifetimes, provided every answer was prompt. */
  lemma {:induction false} CachedTokensAreLive(g: Grant, fetches: seq<Fetch>, buffer: int)
    requires Prompt(g, buffer)
    requires forall f :: f in fetches && f.reply.Some? ==> Prompt(f.reply.value, buffer)
    ensures var handed := Hand(g, fetches, buffer);
            forall i :: 0 <= i < |fetches| && handed[i].FromCache? ==>
              handed[i].g.seconds.Some? && fetches[i].now < Expiry(handed[i].g)
    decreases |fetches|
  {
    if fetches != [] {
      CachedTokensAreLive(Step(g, fetches[0], buffer).0, fetches[1..], buffer);
    }
  }

  /** The clock never runs back: a request is answered after it is made, and the next fetch comes later. */
  predicate WellTimed(clock: int, g: Grant, fetches: seq<Fetch>, buffer: int)
    decreases |fetches|
  {
    fetches != [] ==>
      var f := fetches[0];
      var (g', h) := Step(g, f, buffer);
      && clock <= f.now
      && (h.Fresh? ==> f.now <= h.g.receivedAt)
      && WellTimed(if h.Fresh? then h.g.receivedAt else f.now, g', fetches[1..], buffer)
  }

  function UsableSum(grants: seq<Grant>, buffer: int): int
    requires forall g :: g in grants ==> g.seconds.Some?
  {
    if grants == [] then 0
    else Usable(grants[0].seconds.value, buffer) + UsableSum(grants[1..], buffer)
  }

  /** The next grant is received only after the one in hand is used up. */
  lemma {:induction false} NextComesAfterUse(clock: int, g: Grant, fetches: seq<Fetch>, buffer: int)
    requires WellTimed(clock, g, fetches, buffer) && g.seconds.Some?
    requires Obtained(g, fetches, buffer) != []
    ensures g.receivedAt + Usable(g.seconds.value, buffer) < Obtained(g, fetches, buffer)[0].receivedAt
    decreases |fetches|
  {
    var (g', h) := Step(g, fetches[0], buffer);
    if !h.Fresh? {
      NextComesAfterUse(fetches[0].now, g', fetches[1..], buffer);
    }
  }

  /** Starting from a grant, the tokens of a run are used, one after the other and never together,
      within the time it takes to receive them. */
  lemma {:induction false} UsesDoNotOverlap(clock: int, g: Grant, fetches: seq<Fetch>, buffer: int)
    requires WellTimed(clock, g, fetches, buffer) && g.seconds.Some?
    requires forall f :: f in fetches && f.reply.Some? ==> f.reply.value.seconds.Some?
    requires Obtained(g, fetches, buffer) != []
    ensures var all := [g] + Obtained(g, fetches, buffer);
            (forall h :: h in all ==> h.seconds.Some?)
            && UsableSum(all[..|all| - 1], buffer) < all[|all| - 1].receivedAt - g.receivedAt
    decreases |fetches|
  {
    hide Usable, ValidUntil, OAuthTokens.InUse;
    var f := fetches[0];
    var (g', h) := Step(g, f, buffer);
    var rest := Obtained(g', fetches[1..], buffer);
    var all := [g] + Obtained(g, fetches, buffer);
    NextComesAfterUse(clock, g, fetches, buffer);
    if !h.Fresh? {
      assert Obtained(g, fetches, buffer) == rest;
      UsesDoNotOverlap(f.now, g, fetches[1..], buffer);
    } else if rest == [] {
      assert all == [g, h.g];
      assert all[..1] == [g];
      assert [g][1..] == [];
      assert UsableSum([g], buffer) == Usable(g.seconds.value, buffer) + UsableSum([], buffer);
    } else {
      assert all == [g] + ([h.g] + rest);
      UsesDoNotOverlap(h.g.receivedAt, g', fetches[1..], buffer);
      var tail := [h.g] + rest;
      assert all[..|all| - 1][1..] == tail[..|tail| - 1];
    }
  }

  /** Lifetimes of one second up to the largest that 64 bits of nanoseconds hold. */
  predicate Ordinary(g: Grant) {
    g.seconds.Some? && g.seconds.value >= 1 && FitsInt64(Nanos(g.seconds.value))
  }

  /** A whole number of seconds is usable for half a second or more exactly when it is positive. */
  lemma UsableForHalfASecond(seconds: int, buffer: int)
    requires FitsInt64(Nanos(seconds)) && (buffer == EXTERNAL_BUFFER || buffer == STS_BUFFER)
    ensures 2 * Usable(seconds, buffer) >= Nanos(1) <==> seconds >= 1
  {
  }

  lemma {:induction false} UsableSumAtLeast(grants: seq<Grant>, buffer: int)
    requires forall g :: g in grants ==> g.seconds.Some? && Ordinary(g)
    requires buffer == EXTERNAL_BUFFER || buffer == STS_BUFFER
    ensures 2 * UsableSum(grants, buffer) >= Nanos(|grants|)
  {
    if grants != [] {
      assert grants[0] in grants;
      UsableForHalfASecond(grants[0].seconds.value, buffer);
      UsableSumAtLeast(grants[1..], buffer);
    }
  }

  /** Requests are bounded in rate: n answers take more than half a second for each but the last. */
  lemma RequestsAreBounded(clock: int, g: Grant, fetches: seq<Fetch>, buffer: int)
    requires WellTimed(clock, g, fetches, buffer) && (buffer == EXTERNAL_BUFFER || buffer == STS_BUFFER)
    requires Ordinary(g) && forall f :: f in fetches && f.reply.Some? ==> Ordinary(f.reply.value)
    ensures var obtained := Obtained(g, fetches, buffer);
            obtained != [] ==>
              Nanos(|obtained|) < 2 * (obtained[|obtained| - 1].receivedAt - g.receivedAt)
  {
    var obtained := Obtained(g, fetches, buffer);
    if obtained != [] {
      var all := [g] + obtained;
      UsesDoNotOverlap(clock, g, fetches, buffer);
      ObtainedAreReplies(g, fetches, buffer);
      forall h | h in all[..|all| - 1] ensures h.seconds.Some? && Ordinary(h)
      {
        assert h in all;
        if h != g {
          var f :| f in fetches && f.reply == Some(h);
        }
      }
      UsableSumAtLeast(all[..|all| - 1], buffer);
    }
  }

  lemma {:induction false} ObtainedAreReplies(g: Grant, fetches: seq<Fetch>, buffer: int)
    ensures forall h :: h in Obtained(g, fetches, buffer) ==> exists f :: f in fetches && f.reply == Some(h)
    decreases |fetches|
  {
    if fetches != [] {
      ObtainedAreReplies(Step(g, fetches[0], buffer).0, fetches[1..], buffer);
      assert fetches[0] in fetches;
    }
  }

  /** A token is used at all exactly when its counted lifetime is not negative: a promise of so many
      seconds that the nanoseconds wrap around may be asked for again at every fetch. */
  lemma UsedAtAll(g: Grant, buffer: int)
    requires g.seconds.Some? && buffer > 0
    ensures (exists now :: now >= g.receivedAt && InUse(ValidUntil(g, buffer), now)) <==> Counted(g.seconds.value) >= 0
    ensures Counted(10_000_000_000) < 0
  {
    if Counted(g.seconds.value) >= 0 {
      assert InUse(ValidUntil(g, buffer), g.receivedAt);
    }
  }

  /** The buffer is a step, not a slope: a longer promise means no shorter use exactly when the two
      lie on one side of the buffer, or the longer one makes up for what the buffer takes. */
  lemma LongerPromiseLongerUse(s: int, t: int, buffer: int)
    requires 0 <= s <= t && FitsInt64(Nanos(t)) && buffer >= 0
    ensures Usable(s, Nanos(buffer)) <= Usable(t, Nanos(buffer)) <==> t <= buffer || s > buffer || s <= 2 * (t - buffer)
    ensures EXTERNAL_BUFFER == Nanos(3 * 60) && STS_BUFFER == Nanos(60)
    ensures Usable(60, STS_BUFFER) == Nanos(30) && Usable(61, STS_BUFFER) == Nanos(1)
    ensures Usable(180, EXTERNAL_BUFFER) == Nanos(90) && Usable(181, EXTERNAL_BUFFER) == Nanos(1)
  {
    assert Counted(s) == Nanos(s) && Counted(t) == Nanos(t);
  }

  // ---- The two tokens are leases ----

  function ExternalGrant(reply: Reply<ExternalResponse>, issuedAt: int): Option<Grant> {
    match reply.body
    case Err(_) => None
    case Ok(body) =>
      Some(Grant(if body.expiresIn.Some? then Some(Truncate(body.expiresIn.value.number)) else None,
                 issuedAt, reply.receivedAt))
  }

  /** Fetching the external token is a step of the lease machine. */
  lemma ExternalIsALease(t: ExternalToken, now: int, reply: Reply<ExternalResponse>, issuedAt: int, g: Grant)
    requires t.validUntil == ValidUntil(g, EXTERNAL_BUFFER)
    ensures var (t', r) := ExternalStep(t, now, reply);
            var (g', h) := Step(g, Fetch(now, ExternalGrant(reply, issuedAt)), EXTERNAL_BUFFER);
            && t'.validUntil == ValidUntil(g', EXTERNAL_BUFFER)
            && (h.Nothing? <==> r.Err?) && (r.Ok? ==> r.value == t'.accessToken)
            && (!h.Fresh? ==> t' == t)
            && (h.Fresh? ==> t'.scope == t.scope && t'.identityPoolId == t.identityPoolId && t'.tokenUrl == t.tokenUrl
                             && t'.clientId == t.clientId && t'.clientSecret == t.clientSecret)
  {
  }

  /** An STS token comes when the external token could be had and the exchange was answered. */
  function STSGrant(external: ExternalToken, sts: STSToken, call: Call, issuedAt: int): Option<Grant> {
    var (external', got) := ExternalStep(external, call.externalNow, call.external);
    if got.Ok? && ExchangeFor(external'.accessToken, sts.identityPoolId, sts.expiresInSeconds).Ok? && call.sts.body.Ok?
    then Some(Grant(Some(call.sts.body.value.expiresIn), issuedAt, call.sts.receivedAt))
    else None
  }

  /** Fetching the STS token is a step of the lease machine. */
  lemma STSIsALease(external: ExternalToken, sts: STSToken, call: Call, issuedAt: int, g: Grant)
    requires sts.validUntil == ValidUntil(g, STS_BUFFER)
    ensures var out := STSStep(external, sts, call);
            var (g', h) := Step(g, Fetch(call.stsNow, STSGrant(external, sts, call, issuedAt)), STS_BUFFER);
            && out.sts.validUntil == ValidUntil(g', STS_BUFFER)
            && (h.Nothing? <==> out.result.Err?) && (out.result.Ok? ==> out.result.value == out.sts.accessToken)
            && (!h.Fresh? ==> out.sts == sts)
            && (h.FromCache? ==> out.external == external && out.sent == None)
            && (h.Fresh? <==> out.sent.Some? && out.result.Ok?)
  {
  }

  // ---- Whole runs of the two tokens ----

  /** A fetch of the external token, with the time of issue the provider does not see. */
  datatype ExternalFetch = ExternalFetch(now: int, reply: Reply<ExternalResponse>, issuedAt: int)

  function RunExternal(t: ExternalToken, fetches: seq<ExternalFetch>): ExternalToken
    decreases |fetches|
  {
    if fetches == [] then t
    else RunExternal(ExternalStep(t, fetches[0].now, fetches[0].reply).0, fetches[1..])
  }

  function GrantOf(f: ExternalFetch): Option<Grant> {
    ExternalGrant(f.reply, f.issuedAt)
  }

  predicate PromptReply(f: ExternalFetch) {
    GrantOf(f).Some? ==> Prompt(GrantOf(f).value, EXTERNAL_BUFFER)
  }

  /** The token is the one this fetch was answered with, under this grant. */
  predicate ExternalFrom(t: ExternalToken, h: Grant, f: ExternalFetch) {
    && GrantOf(f) == Some(h) && t.validUntil == ValidUntil(h, EXTERNAL_BUFFER)
    && var body := f.reply.body.value;
       && t.accessToken == (if body.accessToken.Some? then body.accessToken.value else "")
       && t.tokenType == (if body.tokenType.Some? then body.tokenType.value else "")
       && t.expiresInSeconds == (if body.expiresIn.Some? then body.expiresIn.value.shown else "")
  }

  /** After any run of fetches of a token, failed ones among them, the token is the one started with
      or one answered in the run, and whatever the clock, it is in use only before the expiry of its
      own grant, if answers were prompt. */
  lemma {:induction false} ExternalTokenIsLive(t: ExternalToken, g: Grant, fetches: seq<ExternalFetch>)
    returns (held: Grant)
    requires t.validUntil == ValidUntil(g, EXTERNAL_BUFFER) && Prompt(g, EXTERNAL_BUFFER)
    requires forall f :: f in fetches ==> PromptReply(f)
    ensures var t' := RunExternal(t, fetches);
            && ((held == g && t' == t) || exists f :: f in fetches && ExternalFrom(t', held, f))
            && (forall now :: InUse(t'.validUntil, now) ==> held.seconds.Some? && now < Expiry(held))
    decreases |fetches|
  {
    held := g;
    if fetches != [] {
      var f := fetches[0];
      assert f in fetches && PromptReply(f);
      ExternalIsALease(t, f.now, f.reply, f.issuedAt, g);
      var g' := Step(g, Fetch(f.now, GrantOf(f)), EXTERNAL_BUFFER).0;
      held := ExternalTokenIsLive(ExternalStep(t, f.now, f.reply).0, g', fetches[1..]);
    }
  }

  /** A call for an STS token, with the times of issue the provider does not see. */
  datatype STSFetch = STSFetch(call: Call, externalIssuedAt: int, stsIssuedAt: int)

  /** What the STS issuer grants if it is asked. */
  function IssuedSTS(f: STSFetch): Option<Grant> {
    match f.call.sts.body
    case Err(_) => None
    case Ok(resp) => Some(Grant(Some(resp.expiresIn), f.stsIssuedAt, f.call.sts.receivedAt))
  }

  function RunSTS(external: ExternalToken, sts: STSToken, fetches: seq<STSFetch>): (ExternalToken, STSToken)
    decreases |fetches|
  {
    if fetches == [] then (external, sts)
    else
      var out := STSStep(external, sts, fetches[0].call);
      RunSTS(out.external, out.sts, fetches[1..])
  }

  predicate PromptExchange(f: STSFetch) {
    IssuedSTS(f).Some? ==> Prompt(IssuedSTS(f).value, STS_BUFFER)
  }

  predicate STSFrom(s: STSToken, h: Grant, f: STSFetch) {
    && IssuedSTS(f) == Some(h) && s.validUntil == ValidUntil(h, STS_BUFFER)
    && var body := f.call.sts.body.value;
       && s.accessToken == body.accessToken && s.tokenType == body.tokenType
       && s.issuedTokenType == body.issuedTokenType && s.expiresInSeconds == Itoa(body.expiresIn)
  }

  /** Likewise for the STS token, whatever becomes of the external token meanwhile. */
  lemma {:induction false} STSTokenIsLive(external: ExternalToken, sts: STSToken, g: Grant, fetches: seq<STSFetch>)
    returns (held: Grant)
    requires sts.validUntil == ValidUntil(g, STS_BUFFER) && Prompt(g, STS_BUFFER)
    requires forall f :: f in fetches ==> PromptExchange(f)
    ensures var s := RunSTS(external, sts, fetches).1;
            && ((held == g && s == sts) || exists f :: f in fetches && STSFrom(s, held, f))
            && (forall now :: InUse(s.validUntil, now) ==> held.seconds.Some? && now < Expiry(held))
    decreases |fetches|
  {
    held := g;
    if fetches != [] {
      var f := fetches[0];
      assert f in fetches && PromptExchange(f);
      STSIsALease(external, sts, f.call, f.stsIssuedAt, g);
      var out := STSStep(external, sts, f.call);
      var g' := Step(g, Fetch(f.call.stsNow, STSGrant(external, sts, f.call, f.stsIssuedAt)), STS_BUFFER).0;
      held := STSTokenIsLive(out.external, out.sts, g', fetches[1..]);
    }
  }

  // ---- Exchanges ----

  /** A configured lifetime is asked for as it is when it has 32 bits, is refused before anything is sent
      when it does not or is no number, and none is asked for when none is configured. */
  lemma AsksAsConfigured(subject: string, identityPoolId: string, n: int, text: string, i: nat)
    ensures ExchangeFor(subject, identityPoolId, "") == Ok(Exchange(subject, identityPoolId, None))
    ensures ExchangeFor(subject, identityPoolId, Itoa(n))
            == if -TWO_31 <= n < TWO_31 then Ok(Exchange(subject, identityPoolId, Some(n))) else Err(BadExpirySetting)
    ensures i < |text| && !IsDigit(text[i]) && (i > 0 || text[i] !in {'-', '+'}) ==>
              ExchangeFor(subject, identityPoolId, text) == Err(BadExpirySetting)
  {
    ParseOfItoa(n);
    ItoaIsNotEmpty(n);
    if i < |text| && !IsDigit(text[i]) && (i > 0 || text[i] !in {'-', '+'}) {
      ParseRefuses(text, i);
    }
  }

  lemma ItoaIsNotEmpty(n: int)
    ensures Itoa(n) != ""
  {
    if n >= 0 { ValueOfNat(n); }
  }

  /** An exchange that was sent, and the lifetime granted if it was answered. */
  datatype Entry = Entry(exchange: Exchange, granted: Option<int32>)

  function Entries(external: ExternalToken, sts: STSToken, calls: seq<Call>): seq<Entry>
    decreases |calls|
  {
    if calls == [] then []
    else
      var out := STSStep(external, sts, calls[0]);
      (match out.sent
       case None => []
       case Some(x) => [Entry(x, if out.result.Ok? then Some(calls[0].sts.body.value.expiresIn) else None)])
      + Entries(out.external, out.sts, calls[1..])
  }

  /** Each exchange asks for the lifetime granted last. */
  predicate AskForLastGrant(log: seq<Entry>, granted: int32) {
    log != [] ==>
      && log[0].exchange.expiresIn == Some(granted)
      && AskForLastGrant(log[1..], if log[0].granted.Some? then log[0].granted.value else granted)
  }

  /** Once the provider holds an STS token the configured lifetime is forgotten: over any run every
      exchange asks for exactly the lifetime granted last, and that setting never fails to parse. */
  lemma {:induction false} ExchangesAskForLastGrant(external: ExternalToken, sts: STSToken, calls: seq<Call>,
                                                    granted: int32)
    requires sts.expiresInSeconds == Itoa(granted)
    ensures AskForLastGrant(Entries(external, sts, calls), granted)
    decreases |calls|
  {
    if calls != [] {
      ParseOfItoa(granted);
      var out := STSStep(external, sts, calls[0]);
      var rest := Entries(out.external, out.sts, calls[1..]);
      var granted' := if out.sent.Some? && out.result.Ok? then calls[0].sts.body.value.expiresIn else granted;
      ExchangesAskForLastGrant(out.external, out.sts, calls[1..], granted');
      if out.sent.Some? {
        assert Entries(external, sts, calls)[1..] == rest;
      } else {
        assert Entries(external, sts, calls) == rest;
      }
    }
  }

  /** So with an issuer that never grants more than it was asked for, lifetimes never grow back. */
  lemma {:induction false} GrantsNeverGrow(log: seq<Entry>, granted: int32)
    requires AskForLastGrant(log, granted)
    requires forall e :: e in log && e.granted.Some? && e.exchange.expiresIn.Some? ==>
               e.granted.value <= e.exchange.expiresIn.value
    ensures forall i :: 0 <= i < |log| ==> log[i].exchange.expiresIn.Some? && log[i].exchange.expiresIn.value <= granted
    ensures forall i, j :: 0 <= i < j < |log| && log[i].granted.Some? && log[j].granted.Some? ==>
              log[j].granted.value <= log[i].granted.value
  {
    if log != [] {
      assert log[0] in log;
      GrantsNeverGrow(log[1..], if log[0].granted.Some? then log[0].granted.value else granted);
    }
  }

  // ---- A static external token ----

  /** A configured static token is never asked for again before a century is over. */
  lemma {:induction false} StaticTokenIsNeverReplaced(b: OAuthBlock, start: int, first: Reply<ExternalResponse>,
                                                      sts: STSToken, calls: seq<Call>)
    requires b.externalToken != ""
    requires forall c :: c in calls ==> c.externalNow <= start + Nanos(100 * 365 * 24 * 60 * 60)
    ensures var t := InitialExternal(b, start, first).value;
            forall i :: 0 <= i < |Entries(t, sts, calls)| ==>
              Entries(t, sts, calls)[i].exchange.subject == b.externalToken
    decreases |calls|
  {
    var t := InitialExternal(b, start, first).value;
    if calls != [] {
      var out := STSStep(t, sts, calls[0]);
      assert calls[0] in calls;
      assert out.external == t;
      StaticTokenIsNeverReplaced(b, start, first, out.sts, calls[1..]);
    }
  }
}
