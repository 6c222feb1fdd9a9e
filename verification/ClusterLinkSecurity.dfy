/** What the connection entries of a link say to the server, entry by entry: which cluster is logged
    in to with whose credentials. */
module ClusterLinkSecurity {
  import opened Wrappers
  import opened GoStrings
  import opened ConfigLists
  import opened ClusterLinkSchema
  import opened ClusterLinkRequest
  import opened ClusterLinkLifecycle
  import opened ClusterLinkProperties

  predicate Says(config: map<string, string>, name: string, value: string) {
    name in config && config[name] == value
  }

  /** The names of the entries about one side. */
  function SecurityNames(prefix: string, oauthEnabled: bool): set<string> {
    {prefix + "security.protocol", prefix + "sasl.mechanism", prefix + "sasl.jaas.config"}
    + (if oauthEnabled then {prefix + "sasl.login.callback.handler.class",
                             prefix + "sasl.oauthbearer.token.endpoint.url"} else {})
  }

  /** The entries log in to this cluster, with this key and secret or by OAuth. */
  predicate LogsIn(config: map<string, string>, prefix: string, clusterId: string, key: string, secret: string,
                   o: OAuth)
  {
    && Says(config, prefix + "security.protocol", "SASL_SSL")
    && Says(config, prefix + "sasl.mechanism", if o.enabled then "OAUTHBEARER" else "PLAIN")
    && Says(config, prefix + "sasl.jaas.config", if o.enabled then OAuthJaas(clusterId, o) else PlainJaas(key, secret))
    && (o.enabled ==>
          && Says(config, prefix + "sasl.oauthbearer.token.endpoint.url", o.tokenUrl)
          && Says(config, prefix + "sasl.login.callback.handler.class",
                  "org.apache.kafka.common.security." + "oauthbearer.OAuthBearerLoginCallbackHandler"))
  }

  function Prefix(near: bool): string {
    if near then "local." else ""
  }

  /** What one side contributes. */
  function Side(near: bool, clusterId: string, key: string, secret: string, o: OAuth): map<string, string> {
    Protocol(near) + Login(near, clusterId, key, secret, o)
  }

  lemma SideLogsIn(near: bool, clusterId: string, key: string, secret: string, o: OAuth)
    ensures var side := Side(near, clusterId, key, secret, o);
            LogsIn(side, Prefix(near), clusterId, key, secret, o) && side.Keys == SecurityNames(Prefix(near), o.enabled)
  {
    NameLengths();
    PrefixedNames(near);
    hide Named, Prefix;
  }

  lemma PrefixedNames(near: bool)
    ensures forall name :: Prefix(near) + name == Named(near, name)
  {
    forall name ensures Prefix(near) + name == Named(near, name)
    {
      assert "" + name == name;
    }
  }

  lemma NamesOfSide(prefix: string, oauthEnabled: bool)
    ensures forall n :: n in SecurityNames(prefix, oauthEnabled) ==>
              |n| >= |prefix| + 14 && n[|prefix|] == 's' && (|prefix| > 0 ==> n[0] == prefix[0])
  {
  }

  lemma SidesAreApart(oauthEnabled: bool)
    ensures SecurityNames("local.", oauthEnabled) !! SecurityNames("", oauthEnabled)
    ensures SecurityNames("local.", oauthEnabled) + SecurityNames("", oauthEnabled)
            !! MODES + {"remote.link.connection.mode"}
  {
    NamesOfSide("local.", oauthEnabled);
    NamesOfSide("", oauthEnabled);
    hide SecurityNames;
  }

  const MODES: set<string> := {"connection.mode", "link.mode", "bootstrap.servers"}

  /** The entries besides those about logging in. */
  function ModeEntries(l: LinkState, o: OAuth): map<string, string> {
    var modes := Modes(SentMode(l), OUTBOUND, BootstrapOf(Far(l)));
    if l.mode == BIDIRECTIONAL then modes + map[REMOTE_CONNECTION_MODE := INBOUND] else modes
  }

  /** The connection put together side by side. */
  lemma ConnectionBySides(l: LinkState, o: OAuth)
    requires OpensConnection(l)
    ensures var far := Side(false, IdOf(Far(l)), KeyOf(Far(l)), SecretOf(Far(l)), o);
            var near := Side(true, IdOf(Near(l)), KeyOf(Near(l)), SecretOf(Near(l)), o);
            ConnectionConfig(l, o) == ModeEntries(l, o) + (if l.mode == DESTINATION then far else near + far)
  {
    var far, near := Far(l), Near(l);
    SideLogsIn(true, IdOf(near), KeyOf(near), SecretOf(near), o);
    SideLogsIn(false, IdOf(far), KeyOf(far), SecretOf(far), o);
    SidesAreApart(o.enabled);
    ProtocolName(true);
    ProtocolName(false);
    hide Login, Modes, Protocol, Near, Far, OpensConnection, SentMode, SecurityNames, LogsIn;
    Regrouped(ModeEntries(l, o), Protocol(true), Protocol(false),
              Login(true, IdOf(near), KeyOf(near), SecretOf(near), o),
              Login(false, IdOf(far), KeyOf(far), SecretOf(far), o));
  }

  lemma ProtocolName(near: bool)
    ensures Protocol(near).Keys == {Prefix(near) + "security.protocol"}
  {
    PrefixedNames(near);
  }

  lemma Regrouped(modes: map<string, string>, p: map<string, string>, q: map<string, string>,
                  near: map<string, string>, far: map<string, string>)
    requires (p + near).Keys !! (q + far).Keys
    ensures modes + (p + q) + near + far == modes + ((p + near) + (q + far))
    ensures modes + q + far == modes + (q + far)
  {
    assert p + q == q + p;
    MapsAssociate(modes, p + q, near);
    MapsAssociate(modes, (p + q) + near, far);
    MapsAssociate(modes, q, far);
    assert q + near == near + q;
    MapsAssociate(p, q, near);
    MapsAssociate(p, near, q);
    MapsAssociate(p + near, q, far);
  }

  lemma MapsAssociate(a: map<string, string>, b: map<string, string>, c: map<string, string>)
    ensures a + b + c == a + (b + c)
  {
  }

  /** A link that opens its connection says just this: its modes and the far bootstrap endpoint; how
      to log in to the far cluster; unless it is the destination of the data, how to log in to the
      near cluster, with the same cluster and credentials as the REST client; and on a bidirectional
      link, that the other side is inbound. */
  lemma OpeningLinkSays(l: LinkState, o: OAuth)
    requires OpensConnection(l)
    ensures var c, far, client := ConnectionConfig(l, o), Far(l), ClientFor(l);
            && LogsIn(c, "", IdOf(far), KeyOf(far), SecretOf(far), o)
            && (l.mode != DESTINATION ==> LogsIn(c, "local.", client.clusterId, client.key, client.secret, o))
            && Says(c, "bootstrap.servers", BootstrapOf(far)) && Says(c, "connection.mode", "OUTBOUND")
            && Says(c, "link.mode", SentMode(l))
            && (l.mode == BIDIRECTIONAL ==> Says(c, "remote.link.connection.mode", "INBOUND"))
            && c.Keys == MODES + SecurityNames("", o.enabled)
                         + (if l.mode == DESTINATION then {} else SecurityNames("local.", o.enabled))
                         + (if l.mode == BIDIRECTIONAL then {"remote.link.connection.mode"} else {})
  {
    hide ConnectionConfig, Side, Near, Far, OpensConnection, SentMode, ModeEntries, ClientFor;
    hide LogsIn, SecurityNames, Says, Within, IdOf, KeyOf, SecretOf, RestOf, BootstrapOf;
    var near, far := Near(l), Far(l);
    ConnectionBySides(l, o);
    ClientIsNear(l);
    SidesAreApart(o.enabled);
    SideLogsIn(true, IdOf(near), KeyOf(near), SecretOf(near), o);
    SideLogsIn(false, IdOf(far), KeyOf(far), SecretOf(far), o);
    ModeEntriesSay(l, o);
    var modes := ModeEntries(l, o);
    var sideNear := if l.mode == DESTINATION then map[] else Side(true, IdOf(near), KeyOf(near), SecretOf(near), o);
    var sideFar := Side(false, IdOf(far), KeyOf(far), SecretOf(far), o);
    var c := ConnectionConfig(l, o);
    assert c == modes + (sideNear + sideFar);
    PartsAreWithin(modes, sideNear, sideFar);
    LogsInWithin(sideFar, c, "", IdOf(far), KeyOf(far), SecretOf(far), o);
    if l.mode != DESTINATION {
      LogsInWithin(sideNear, c, "local.", IdOf(near), KeyOf(near), SecretOf(near), o);
    }
    SaysWithin(modes, c);
  }

  predicate Within(m: map<string, string>, n: map<string, string>) {
    forall k :: k in m ==> k in n && n[k] == m[k]
  }

  lemma PartsAreWithin(a: map<string, string>, b: map<string, string>, c: map<string, string>)
    requires a.Keys !! b.Keys + c.Keys && b.Keys !! c.Keys
    ensures var all := a + (b + c);
            Within(a, all) && Within(b, all) && Within(c, all) && all.Keys == a.Keys + b.Keys + c.Keys
  {
  }

  lemma SaysWithin(m: map<string, string>, n: map<string, string>)
    requires Within(m, n)
    ensures forall name, value :: Says(m, name, value) ==> Says(n, name, value)
  {
  }

  lemma ModeEntriesSay(l: LinkState, o: OAuth)
    ensures var m := ModeEntries(l, o);
            && Says(m, "bootstrap.servers", BootstrapOf(Far(l))) && Says(m, "connection.mode", "OUTBOUND")
            && Says(m, "link.mode", SentMode(l))
            && (l.mode == BIDIRECTIONAL ==> Says(m, "remote.link.connection.mode", "INBOUND"))
            && m.Keys == MODES + (if l.mode == BIDIRECTIONAL then {"remote.link.connection.mode"} else {})
  {
    NameLengths();
  }

  lemma LogsInWithin(side: map<string, string>, config: map<string, string>, prefix: string, clusterId: string,
                     key: string, secret: string, o: OAuth)
    requires LogsIn(side, prefix, clusterId, key, secret, o)
    requires Within(side, config)
    ensures LogsIn(config, prefix, clusterId, key, secret, o)
  {
  }

  /** Any other link says its modes and the far bootstrap endpoint, and nothing of credentials. */
  lemma InboundLinkSays(l: LinkState, o: OAuth)
    requires !OpensConnection(l)
    ensures var c := ConnectionConfig(l, o);
            && Says(c, "bootstrap.servers", BootstrapOf(Far(l))) && Says(c, "connection.mode", "INBOUND")
            && Says(c, "link.mode", l.mode) && c.Keys == MODES
  {
    NameLengths();
  }

  // ---- The texts ----

  /** Captions and values in turn, as a reader of the quoted strings finds them after a head. */
  function Fields(head: string, options: seq<(string, string)>): seq<string>
    decreases |options|
  {
    if options == [] then [head + ";"]
    else [head + " " + options[0].0 + "=", options[0].1] + Fields("", options[1..])
  }

  lemma SamePrefix<T>(p: seq<T>, a: seq<T>, b: seq<T>)
    ensures p + a == p + b <==> a == b
  {
    assert (p + a)[|p|..] == a;
    assert (p + b)[|p|..] == b;
  }

  lemma SplitQuoted(caption: string, value: string, more: string, tail: seq<string>, quote: char)
    requires quote !in caption
    ensures Split(caption + [quote] + value + [quote] + more, quote) == [caption, value] + tail
            <==> quote !in value && Split(more, quote) == tail
  {
    hide GoStrings.Split;
    var text := caption + [quote] + value + [quote] + more;
    assert text == caption + [quote] + (value + [quote] + more);
    SplitPrepend(caption, value + [quote] + more, quote);
    if quote !in value {
      SplitPrepend(value, more, quote);
      assert Split(text, quote) == [caption, value] + Split(more, quote);
      SamePrefix([caption, value], Split(more, quote), tail);
    } else {
      assert ([caption, value] + tail)[1] == value;
    }
  }

  lemma TextOfOption(head: string, name: string, value: string, more: string, quote: char)
    ensures head + (" " + name + "=" + [quote] + value + [quote] + more)
            == (head + " " + name + "=") + [quote] + value + [quote] + more
  {
  }

  lemma {:induction false} OptionsReadBack(head: string, options: seq<(string, string)>, quote: char)
    requires quote !in head && quote !in {' ', '=', ';'} && forall p :: p in options ==> quote !in p.0
    ensures Split(head + JaasOptions(options, quote), quote) == Fields(head, options)
            <==> forall p :: p in options ==> quote !in p.1
    decreases |options|
  {
    if options == [] {
      SplitWhole(head + JaasOptions(options, quote), quote);
    } else {
      hide GoStrings.Split;
      var first, rest := options[0], options[1..];
      var caption, more := head + " " + first.0 + "=", JaasOptions(rest, quote);
      assert first in options && quote !in caption;
      OptionsReadBack("", rest, quote);
      assert "" + more == more;
      SplitQuoted(caption, first.1, more, Fields("", rest), quote);
      TextOfOption(head, first.0, first.1, more, quote);
      assert forall p :: p in options <==> p == first || p in rest;
    }
  }

  /** A login module that reads the quoted strings finds the key under `username` and the secret under
      `password` exactly when neither holds a quote. */
  lemma PlainJaasReadsBack(key: string, secret: string)
    ensures Split(PlainJaas(key, secret), '"')
            == Fields("org.apache.kafka.common.security." + "plain.PlainLoginModule required",
                      [("username", key), ("password", secret)])
            <==> '"' !in key && '"' !in secret
  {
    var options := [("username", key), ("password", secret)];
    assert options[0].1 == key && options[1].1 == secret;
    OptionsReadBack(SECURITY_PACKAGE + "plain.PlainLoginModule required", options, '"');
  }

  /** Likewise for every setting of an OAuth login. */
  lemma OAuthJaasReadsBack(clusterId: string, o: OAuth)
    ensures Split(OAuthJaas(clusterId, o), '\'')
            == Fields("org.apache.kafka.common.security." + "oauthbearer.OAuthBearerLoginModule required",
                      [("clientId", o.clientId), ("scope", o.scope), ("clientSecret", o.clientSecret),
                       ("extension_logicalCluster", clusterId), ("extension_identityPoolId", o.identityPoolId)])
            <==> '\'' !in o.clientId && '\'' !in o.scope && '\'' !in o.clientSecret
                 && '\'' !in clusterId && '\'' !in o.identityPoolId
  {
    hide Fields, JaasOptions, GoStrings.Split;
    var options := [("clientId", o.clientId), ("scope", o.scope), ("clientSecret", o.clientSecret),
                    ("extension_logicalCluster", clusterId), ("extension_identityPoolId", o.identityPoolId)];
    OAuthOptionsAreQuotable(clusterId, o);
    OAuthModuleIsQuotable();
    OptionsReadBack(SECURITY_PACKAGE + "oauthbearer.OAuthBearerLoginModule required", options, '\'');
  }

  lemma OAuthModuleIsQuotable()
    ensures '\'' !in SECURITY_PACKAGE + "oauthbearer.OAuthBearerLoginModule required"
  {
  }

  lemma OAuthOptionsAreQuotable(clusterId: string, o: OAuth)
    ensures var options := [("clientId", o.clientId), ("scope", o.scope), ("clientSecret", o.clientSecret),
                            ("extension_logicalCluster", clusterId), ("extension_identityPoolId", o.identityPoolId)];
            && (forall p :: p in options ==> '\'' !in p.0)
            && ((forall p :: p in options ==> '\'' !in p.1) <==>
                  '\'' !in o.clientId && '\'' !in o.scope && '\'' !in o.clientSecret
                  && '\'' !in clusterId && '\'' !in o.identityPoolId)
  {
    var options := [("clientId", o.clientId), ("scope", o.scope), ("clientSecret", o.clientSecret),
                    ("extension_logicalCluster", clusterId), ("extension_identityPoolId", o.identityPoolId)];
    OAuthNamesAreQuotable();
    assert options[0].1 == o.clientId && options[1].1 == o.scope && options[2].1 == o.clientSecret;
    assert options[3].1 == clusterId && options[4].1 == o.identityPoolId;
  }

  lemma OAuthNamesAreQuotable()
    ensures '\'' !in "clientId" && '\'' !in "scope" && '\'' !in "clientSecret"
    ensures '\'' !in "extension_logicalCluster" && '\'' !in "extension_identityPoolId"
  {
  }
}
