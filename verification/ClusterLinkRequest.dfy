/** The configuration a cluster link request carries. */
module ClusterLinkRequest {
  import opened Wrappers
  import opened ConfigLists
  import opened ClusterLinkSchema

  const BOOTSTRAP_SERVERS := "bootstrap.servers"
  const CONNECTION_MODE := "connection.mode"
  const LINK_MODE := "link.mode"
  const REMOTE_CONNECTION_MODE := "remote.link.connection.mode"
  const SECURITY_PROTOCOL := "security.protocol"
  const SASL_MECHANISM := "sasl.mechanism"
  const SASL_JAAS := "sasl.jaas.config"
  const SASL_CALLBACK := "sasl.login.callback.handler.class"
  const SASL_TOKEN_URL := "sasl.oauthbearer.token.endpoint.url"
  const LOCAL := "local."
  const LOCAL_SECURITY_PROTOCOL := LOCAL + SECURITY_PROTOCOL
  const LOCAL_SASL_MECHANISM := LOCAL + SASL_MECHANISM
  const LOCAL_SASL_JAAS := LOCAL + SASL_JAAS
  const LOCAL_SASL_CALLBACK := LOCAL + SASL_CALLBACK
  const LOCAL_SASL_TOKEN_URL := LOCAL + SASL_TOKEN_URL

  const GENERATED: set<string> := {
    BOOTSTRAP_SERVERS, CONNECTION_MODE, LINK_MODE, REMOTE_CONNECTION_MODE,
    SECURITY_PROTOCOL, SASL_MECHANISM, SASL_JAAS, SASL_CALLBACK, SASL_TOKEN_URL,
    LOCAL_SECURITY_PROTOCOL, LOCAL_SASL_MECHANISM, LOCAL_SASL_JAAS, LOCAL_SASL_CALLBACK, LOCAL_SASL_TOKEN_URL
  }

  const CREDENTIAL_NAMES: set<string> := {SASL_JAAS, LOCAL_SASL_JAAS, SASL_MECHANISM, LOCAL_SASL_MECHANISM}

  const SASL_SSL := "SASL_SSL"
  const PLAIN := "PLAIN"
  const OAUTHBEARER := "OAUTHBEARER"
  const SECURITY_PACKAGE := "org.apache.kafka.common.security."
  const CALLBACK_HANDLER := SECURITY_PACKAGE + "oauthbearer.OAuthBearerLoginCallbackHandler"

  /** The provider's OAuth settings; `enabled` is false when it runs on API keys. */
  datatype OAuth = OAuth(enabled: bool, identityPoolId: string, clientId: string, clientSecret: string,
                         scope: string, tokenUrl: string)

  /** The options of a login module, each value in quotes. */
  function JaasOptions(options: seq<(string, string)>, quote: char): string {
    if options == [] then ";"
    else " " + options[0].0 + "=" + [quote] + options[0].1 + [quote] + JaasOptions(options[1..], quote)
  }

  function PlainJaas(key: string, secret: string): string {
    SECURITY_PACKAGE + "plain.PlainLoginModule required"
    + JaasOptions([("username", key), ("password", secret)], '"')
  }

  function OAuthJaas(clusterId: string, o: OAuth): string {
    SECURITY_PACKAGE + "oauthbearer.OAuthBearerLoginModule required"
    + JaasOptions([("clientId", o.clientId), ("scope", o.scope), ("clientSecret", o.clientSecret),
                   ("extension_logicalCluster", clusterId), ("extension_identityPoolId", o.identityPoolId)], '\'')
  }

  // ---- What a link needs, said once for all modes ----

  function Named(near: bool, name: string): string {
    if near then LOCAL + name else name
  }

  function Protocol(near: bool): map<string, string> {
    map[Named(near, SECURITY_PROTOCOL) := SASL_SSL]
  }

  /** How one side is logged in to; entries about the near side carry the prefix. */
  function Login(near: bool, clusterId: string, key: string, secret: string, o: OAuth): map<string, string> {
    if o.enabled then
      map[Named(near, SASL_MECHANISM) := OAUTHBEARER,
          Named(near, SASL_TOKEN_URL) := o.tokenUrl,
          Named(near, SASL_CALLBACK) := CALLBACK_HANDLER,
          Named(near, SASL_JAAS) := OAuthJaas(clusterId, o)]
    else
      map[Named(near, SASL_MECHANISM) := PLAIN,
          Named(near, SASL_JAAS) := PlainJaas(key, secret)]
  }

  function Modes(linkMode: string, connectionMode: string, bootstrap: string): map<string, string> {
    map[CONNECTION_MODE := connectionMode, LINK_MODE := linkMode, BOOTSTRAP_SERVERS := bootstrap]
  }

  function SentMode(l: LinkState): string {
    if l.mode == BIDIRECTIONAL || l.mode == DESTINATION then l.mode else SOURCE
  }

  /** The connection entries of a request: the side that opens the connection logs in to the
      far side, and to itself unless it is the destination of the data. */
  function ConnectionConfig(l: LinkState, o: OAuth): map<string, string> {
    var near, far := Near(l), Far(l);
    if !OpensConnection(l) then
      Modes(SentMode(l), INBOUND, BootstrapOf(far))
    else
      var modes := Modes(SentMode(l), OUTBOUND, BootstrapOf(far));
      var loginFar := Login(false, IdOf(far), KeyOf(far), SecretOf(far), o);
      if l.mode == DESTINATION then modes + Protocol(false) + loginFar
      else
        (if l.mode == BIDIRECTIONAL then modes + map[REMOTE_CONNECTION_MODE := INBOUND] else modes)
        + (Protocol(true) + Protocol(false))
        + Login(true, IdOf(near), KeyOf(near), SecretOf(near), o)
        + loginFar
  }

  // ---- Names ----

  /** The names tell apart by their lengths, but for two. */
  lemma NameLengths()
    ensures |BOOTSTRAP_SERVERS| == 17 && BOOTSTRAP_SERVERS[0] == 'b'
    ensures |CONNECTION_MODE| == 15 && |LINK_MODE| == 9 && |REMOTE_CONNECTION_MODE| == 27
    ensures |SECURITY_PROTOCOL| == 17 && SECURITY_PROTOCOL[0] == 's'
    ensures |SASL_MECHANISM| == 14 && |SASL_JAAS| == 16 && |SASL_CALLBACK| == 33 && |SASL_TOKEN_URL| == 35
    ensures |LOCAL_SECURITY_PROTOCOL| == 23
    ensures |LOCAL_SASL_MECHANISM| == 20 && |LOCAL_SASL_JAAS| == 22 && |LOCAL_SASL_CALLBACK| == 39
    ensures |LOCAL_SASL_TOKEN_URL| == 41
  {
  }

  /** No name the provider generates is a name a user may set. */
  lemma GeneratedAreNotEditable()
    ensures GENERATED !! EDITABLE
  {
    forall n | n in GENERATED ensures n !in EDITABLE
    {
      if n in {LOCAL_SECURITY_PROTOCOL, LOCAL_SASL_MECHANISM, LOCAL_SASL_JAAS, LOCAL_SASL_CALLBACK,
               LOCAL_SASL_TOKEN_URL}
      {
        assert n[0] == LOCAL[0] == 'l';
        assert forall e :: e in EDITABLE ==> e[0] != 'l';
      }
    }
  }

  lemma LoginNames(near: bool, clusterId: string, key: string, secret: string, o: OAuth)
    ensures Login(near, clusterId, key, secret, o).Keys <= GENERATED
  {
  }

  lemma ConnectionNamesAreGenerated(l: LinkState, o: OAuth)
    ensures ConnectionConfig(l, o).Keys <= GENERATED
  {
    assert Protocol(false).Keys <= GENERATED;
    assert Protocol(true).Keys <= GENERATED;
    var near, far := Near(l), Far(l);
    assert Modes(SentMode(l), INBOUND, BootstrapOf(far)).Keys <= GENERATED;
    assert Modes(SentMode(l), OUTBOUND, BootstrapOf(far)).Keys <= GENERATED;
    assert (map[REMOTE_CONNECTION_MODE := INBOUND]).Keys <= GENERATED;
    LoginNames(false, IdOf(far), KeyOf(far), SecretOf(far), o);
    LoginNames(true, IdOf(near), KeyOf(near), SecretOf(near), o);
  }

  // ---- The builders, one for each pair of link and connection modes ----

  /** Adds the login entries of one side. */
  method AddLogin(config: map<string, string>, near: bool, clusterId: string, key: string, secret: string, o: OAuth)
    returns (extended: map<string, string>)
    ensures extended == config + Login(near, clusterId, key, secret, o)
  {
    extended := config;
    if o.enabled {
      extended := extended[Named(near, SASL_MECHANISM) := OAUTHBEARER];
      extended := extended[Named(near, SASL_TOKEN_URL) := o.tokenUrl];
      extended := extended[Named(near, SASL_CALLBACK) := CALLBACK_HANDLER];
      extended := extended[Named(near, SASL_JAAS) := OAuthJaas(clusterId, o)];
    } else {
      extended := extended[Named(near, SASL_MECHANISM) := PLAIN];
      extended := extended[Named(near, SASL_JAAS) := PlainJaas(key, secret)];
    }
  }

  method ConfigForBidirectionalOutbound(localKey: string, localSecret: string, remoteBootstrap: string,
                                        remoteKey: string, remoteSecret: string, localId: string, remoteId: string,
                                        o: OAuth)
    returns (config: map<string, string>)
    ensures config == Modes(BIDIRECTIONAL, OUTBOUND, remoteBootstrap) + map[REMOTE_CONNECTION_MODE := INBOUND]
                      + (Protocol(true) + Protocol(false))
                      + Login(true, localId, localKey, localSecret, o)
                      + Login(false, remoteId, remoteKey, remoteSecret, o)
  {
    NameLengths();
    config := map[];
    config := config[CONNECTION_MODE := OUTBOUND];
    config := config[REMOTE_CONNECTION_MODE := INBOUND];
    config := config[LINK_MODE := BIDIRECTIONAL];
    config := config[BOOTSTRAP_SERVERS := remoteBootstrap];
    config := config[LOCAL_SECURITY_PROTOCOL := SASL_SSL];
    config := config[SECURITY_PROTOCOL := SASL_SSL];
    assert config == Modes(BIDIRECTIONAL, OUTBOUND, remoteBootstrap) + map[REMOTE_CONNECTION_MODE := INBOUND]
                     + (Protocol(true) + Protocol(false));
    config := AddLogin(config, true, localId, localKey, localSecret, o);
    config := AddLogin(config, false, remoteId, remoteKey, remoteSecret, o);
  }

  method ConfigForBidirectionalInbound(bootstrap: string) returns (config: map<string, string>)
    ensures config == Modes(BIDIRECTIONAL, INBOUND, bootstrap)
  {
    config := map[];
    config := config[CONNECTION_MODE := INBOUND];
    config := config[LINK_MODE := BIDIRECTIONAL];
    config := config[BOOTSTRAP_SERVERS := bootstrap];
  }

  method ConfigForDestinationOutbound(sourceBootstrap: string, sourceId: string, key: string, secret: string, o: OAuth)
    returns (config: map<string, string>)
    ensures config == Modes(DESTINATION, OUTBOUND, sourceBootstrap) + Protocol(false)
                      + Login(false, sourceId, key, secret, o)
  {
    config := map[];
    config := config[CONNECTION_MODE := OUTBOUND];
    config := config[LINK_MODE := DESTINATION];
    config := config[BOOTSTRAP_SERVERS := sourceBootstrap];
    config := config[SECURITY_PROTOCOL := SASL_SSL];
    assert config == Modes(DESTINATION, OUTBOUND, sourceBootstrap) + Protocol(false);
    config := AddLogin(config, false, sourceId, key, secret, o);
  }

  method ConfigForDestinationInbound(bootstrap: string) returns (config: map<string, string>)
    ensures config == Modes(DESTINATION, INBOUND, bootstrap)
  {
    config := map[];
    config := config[CONNECTION_MODE := INBOUND];
    config := config[LINK_MODE := DESTINATION];
    config := config[BOOTSTRAP_SERVERS := bootstrap];
  }

  method ConfigForSourceOutbound(sourceKey: string, sourceSecret: string, destinationBootstrap: string,
                                 destinationKey: string, destinationSecret: string,
                                 sourceId: string, destinationId: string, o: OAuth)
    returns (config: map<string, string>)
    ensures config == Modes(SOURCE, OUTBOUND, destinationBootstrap)
                      + (Protocol(true) + Protocol(false))
                      + Login(true, sourceId, sourceKey, sourceSecret, o)
                      + Login(false, destinationId, destinationKey, destinationSecret, o)
  {
    NameLengths();
    config := map[];
    config := config[CONNECTION_MODE := OUTBOUND];
    config := config[LINK_MODE := SOURCE];
    config := config[LOCAL_SECURITY_PROTOCOL := SASL_SSL];
    config := config[SECURITY_PROTOCOL := SASL_SSL];
    config := config[BOOTSTRAP_SERVERS := destinationBootstrap];
    assert config == Modes(SOURCE, OUTBOUND, destinationBootstrap) + (Protocol(true) + Protocol(false));
    config := AddLogin(config, true, sourceId, sourceKey, sourceSecret, o);
    config := AddLogin(config, false, destinationId, destinationKey, destinationSecret, o);
  }

  // ---- The request ----

  /** Exactly one of the three cluster ids is set. */
  datatype LinkRequest = LinkRequest(sourceId: Option<string>, destinationId: Option<string>, remoteId: Option<string>,
                                     configs: seq<ConfigData>)

  /** The far cluster goes under the name of its role. */
  predicate NamesFarCluster(r: LinkRequest, l: LinkState) {
    && r.remoteId == (if l.mode == BIDIRECTIONAL then Some(IdOf(Far(l))) else None)
    && r.sourceId == (if l.mode == DESTINATION then Some(IdOf(Far(l))) else None)
    && r.destinationId == (if l.mode == BIDIRECTIONAL || l.mode == DESTINATION then None else Some(IdOf(Far(l))))
  }

  /** The connection entries in some order, then the user's settings in some order. */
  ghost predicate RequestFor(r: LinkRequest, l: LinkState, o: OAuth) {
    && NamesFarCluster(r, l)
    && Lists(r.configs, ConnectionConfig(l, o), l.configs)
  }

  /** Picks the builder for the modes of the link. */
  method ConstructConnection(l: LinkState, o: OAuth) returns (config: map<string, string>)
    ensures config == ConnectionConfig(l, o)
  {
    if l.mode == BIDIRECTIONAL {
      if l.connection == OUTBOUND {
        config := ConfigForBidirectionalOutbound(KeyOf(l.local), SecretOf(l.local), BootstrapOf(l.remote),
                                                 KeyOf(l.remote), SecretOf(l.remote), IdOf(l.local), IdOf(l.remote), o);
      } else {
        config := ConfigForBidirectionalInbound(BootstrapOf(l.remote));
      }
    } else if l.mode == DESTINATION {
      if l.connection == OUTBOUND {
        config := ConfigForDestinationOutbound(BootstrapOf(l.source), IdOf(l.source), KeyOf(l.source),
                                               SecretOf(l.source), o);
      } else {
        config := ConfigForDestinationInbound(BootstrapOf(l.source));
      }
    } else {
      config := ConfigForSourceOutbound(KeyOf(l.source), SecretOf(l.source), BootstrapOf(l.destination),
                                        KeyOf(l.destination), SecretOf(l.destination), IdOf(l.source),
                                        IdOf(l.destination), o);
    }
  }

  /** Builds the create request, also used for its credential entries when credentials change. */
  method ConstructRequest(l: LinkState, o: OAuth) returns (r: LinkRequest)
    ensures RequestFor(r, l, o)
  {
    var settings := FromMap(l.configs);
    var config := ConstructConnection(l, o);
    var connection := FromMap(config);
    AppendLists(connection, config, settings, l.configs);
    if l.mode == BIDIRECTIONAL {
      r := LinkRequest(None, None, Some(IdOf(l.remote)), connection + settings);
    } else if l.mode == DESTINATION {
      r := LinkRequest(Some(IdOf(l.source)), None, None, connection + settings);
    } else {
      r := LinkRequest(None, Some(IdOf(l.destination)), None, connection + settings);
    }
  }
}
