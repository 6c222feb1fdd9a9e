/** What holds of a cluster link over single steps and over whole runs. */
module ClusterLinkProperties {
  import opened Wrappers
  import opened ConfigLists
  import opened ClusterLinkSchema
  import opened ClusterLinkRequest
  import opened ClusterLinkLifecycle

  // ---- Requests ----

  /** Over any map order, no name repeats in a request exactly when the user set no generated name. */
  lemma RequestNamesDistinct(r: LinkRequest, l: LinkState, o: OAuth)
    requires RequestFor(r, l, o)
    ensures Distinct(r.configs) <==> l.configs.Keys !! ConnectionConfig(l, o).Keys
    ensures Collected(r.configs) == ConnectionConfig(l, o) + l.configs
  {
    ListsMeans(r.configs, ConnectionConfig(l, o), l.configs);
  }

  /** Every accepted link has somewhere to be created and something to connect to. */
  lemma AcceptedLinkIsBuildable(l: LinkState, o: OAuth, r: LinkRequest)
    requires SchemaAllows(l) && Validate(l, o.enabled).None? && RequestFor(r, l, o)
    ensures ClientFor(l).restEndpoint != ""
    ensures BootstrapOf(Far(l)) != "" && ConfigData(BOOTSTRAP_SERVERS, BootstrapOf(Far(l))) in r.configs
    ensures ConfigData(LINK_MODE, l.mode) in r.configs
    ensures ConfigData(CONNECTION_MODE, l.connection) in r.configs
    ensures (r.sourceId, r.destinationId, r.remoteId)
            == if l.mode == BIDIRECTIONAL then (None, None, Some(IdOf(l.remote)))
               else if l.mode == DESTINATION then (Some(IdOf(l.source)), None, None)
               else (None, Some(IdOf(l.destination)), None)
  {
    ValidateByRole(l, o.enabled);
    ClientIsNear(l);
    hide Validate, ConnectionConfig, ClientFor;
    RequestEnumerates(r, l, o);
    GeneratedAreNotEditable();
    ModesAreSent(l, o);
    KeysOfUnion(r.configs, ConnectionConfig(l, o), l.configs, EDITABLE, BOOTSTRAP_SERVERS);
    KeysOfUnion(r.configs, ConnectionConfig(l, o), l.configs, EDITABLE, LINK_MODE);
    KeysOfUnion(r.configs, ConnectionConfig(l, o), l.configs, EDITABLE, CONNECTION_MODE);
  }

  lemma KeysOfUnion(list: seq<ConfigData>, m: map<string, string>, n: map<string, string>,
                    editable: set<string>, name: string)
    requires Enumerates(list, m + n) && n.Keys <= editable && name !in editable && name in m
    ensures ConfigData(name, m[name]) in list
  {
    assert (m + n)[name] == m[name];
  }

  const MODE_NAMES: set<string> := {CONNECTION_MODE, LINK_MODE, BOOTSTRAP_SERVERS}

  lemma SecurityAvoidsModes(near: bool, clusterId: string, key: string, secret: string, o: OAuth)
    ensures Login(near, clusterId, key, secret, o).Keys !! MODE_NAMES
    ensures Protocol(near).Keys !! MODE_NAMES
  {
    NameLengths();
  }

  lemma ModesAreSet(linkMode: string, connectionMode: string, bootstrap: string)
    ensures var m := Modes(linkMode, connectionMode, bootstrap);
            && m.Keys == MODE_NAMES && BOOTSTRAP_SERVERS in m && LINK_MODE in m && CONNECTION_MODE in m
            && m[BOOTSTRAP_SERVERS] == bootstrap && m[LINK_MODE] == linkMode && m[CONNECTION_MODE] == connectionMode
    ensures REMOTE_CONNECTION_MODE !in MODE_NAMES
  {
    NameLengths();
  }

  lemma ModesAreSent(l: LinkState, o: OAuth)
    ensures var c := ConnectionConfig(l, o);
            && BOOTSTRAP_SERVERS in c && c[BOOTSTRAP_SERVERS] == BootstrapOf(Far(l))
            && LINK_MODE in c && c[LINK_MODE] == SentMode(l)
            && CONNECTION_MODE in c && c[CONNECTION_MODE] == (if OpensConnection(l) then OUTBOUND else INBOUND)
  {
    hide Login, Protocol, Modes, Named;
    var near, far := Near(l), Far(l);
    ModesAreSet(SentMode(l), if OpensConnection(l) then OUTBOUND else INBOUND, BootstrapOf(far));
    SecurityAvoidsModes(true, IdOf(near), KeyOf(near), SecretOf(near), o);
    SecurityAvoidsModes(false, IdOf(far), KeyOf(far), SecretOf(far), o);
  }

  // ---- Credentials ----

  /** A credential update has something to send exactly when the near side opens the connection. */
  lemma CredentialsAreSentOutbound(l: LinkState, o: OAuth)
    ensures CredentialEntries(l, o) == map[] <==> !OpensConnection(l)
  {
    if OpensConnection(l) {
      JaasIsSent(l, o);
      assert SASL_JAAS in CredentialEntries(l, o);
    } else {
      ModesCarryNoCredentials(SentMode(l), INBOUND, BootstrapOf(Far(l)));
    }
  }

  lemma ModesCarryNoCredentials(linkMode: string, connectionMode: string, bootstrap: string)
    ensures Restrict(Modes(linkMode, connectionMode, bootstrap), CREDENTIAL_NAMES) == map[]
  {
    NameLengths();
  }

  lemma JaasIsSent(l: LinkState, o: OAuth)
    requires OpensConnection(l)
    ensures SASL_JAAS in ConnectionConfig(l, o)
    ensures ConnectionConfig(l, o)[SASL_JAAS]
            == if o.enabled then OAuthJaas(IdOf(Far(l)), o) else PlainJaas(KeyOf(Far(l)), SecretOf(Far(l)))
  {
    hide Protocol, Modes;
    var far := Far(l);
    LoginHasJaas(IdOf(far), KeyOf(far), SecretOf(far), o);
    hide Login;
  }

  lemma LoginHasJaas(clusterId: string, key: string, secret: string, o: OAuth)
    ensures var login := Login(false, clusterId, key, secret, o);
            SASL_JAAS in login
            && login[SASL_JAAS] == if o.enabled then OAuthJaas(clusterId, o) else PlainJaas(key, secret)
  {
  }

  /** An accepted link that opens the connection logs in to the far cluster with a key and a secret
      of that cluster, or by OAuth; a bidirectional link alone may do so with none. */
  lemma AcceptedLinkLogsIn(l: LinkState, o: OAuth)
    requires SchemaAllows(l) && Validate(l, o.enabled).None? && OpensConnection(l) && !o.enabled
    ensures SASL_JAAS in ConnectionConfig(l, o)
    ensures ConnectionConfig(l, o)[SASL_JAAS] == PlainJaas(KeyOf(Far(l)), SecretOf(Far(l)))
    ensures KeyOf(Far(l)) != "" <==> l.mode != BIDIRECTIONAL || CredentialsOf(Far(l)).Some?
  {
    JaasIsSent(l, o);
    ValidateByRole(l, o.enabled);
  }

  // ---- Read-back ----

  predicate SameBlocks(l: LinkState, k: LinkState) {
    l.source == k.source && l.destination == k.destination && l.local == k.local && l.remote == k.remote
  }

  /** The blocks as a read leaves them. */
  function ReadBack(l: LinkState): LinkState {
    WithBlocks(l, l.name, l.mode, l.connection, l.linkId, MetadataOf(l))
  }

  lemma RebuiltTwice(e: Endpoint, withCredentials: bool)
    ensures Rebuilt(Flatten(Rebuilt(e, withCredentials)), withCredentials) == Rebuilt(e, withCredentials)
    ensures Flatten(Rebuilt(e, true)) == e
  {
  }

  /** Writing the blocks from what they flatten to gives the same blocks and keeps the client. */
  lemma WrittenTwice(l: LinkState, linkId: string, configs: map<string, string>, id: string)
    ensures var blocks := WithBlocks(l, l.name, l.mode, l.connection, linkId, MetadataOf(l));
            var once := blocks.(configs := configs, id := id);
            && ClientFor(once) == ClientFor(l)
            && once.name == l.name && once.mode == l.mode && once.connection == l.connection
            && WithBlocks(once, once.name, once.mode, once.connection, linkId, MetadataOf(once)) == once
  {
    var once := WithBlocks(l, l.name, l.mode, l.connection, linkId, MetadataOf(l)).(configs := configs, id := id);
    ClientIsNear(l);
    ClientIsNear(once);
    var keepFar := !DropsFarCredentials(l.mode, l.connection);
    RebuiltTwice(Flatten(Near(l)), true);
    RebuiltTwice(Flatten(l.local), true);
    RebuiltTwice(Flatten(l.remote), keepFar);
    RebuiltTwice(Flatten(l.destination), true);
    RebuiltTwice(Flatten(l.source), keepFar);
    RebuiltTwice(Flatten(l.source), true);
    hide ClientFor, Rebuilt, Flatten;
  }

  lemma BlocksOnly(l: LinkState, name: string, mode: string, connection: string, linkId: string, m: Metadata)
    ensures var k := WithBlocks(l, name, mode, connection, linkId, m);
            && k.name == name && k.mode == mode && k.connection == connection && k.linkId == linkId
            && k.configs == l.configs && k.id == l.id
  {
  }

  /** Blocks that a read can reproduce from the strings it extracts. */
  predicate Tidy(b: Option<Block>) {
    b.Some? && (CredentialsOf(b).Some? ==> KeyOf(b) != "" || SecretOf(b) != "")
  }

  /** Exactly which states a read leaves alone: both sides present, no blank credentials, and none
      on the far side of an inbound link. */
  lemma ReadKeepsBlocks(l: LinkState)
    ensures SameBlocks(ReadBack(l), l) <==>
            && Tidy(Near(l)) && Tidy(Far(l))
            && (DropsFarCredentials(l.mode, l.connection) ==> CredentialsOf(Far(l)).None?)
  {
  }

  /** Read leaves the blocks of every accepted link alone but for the one combination that
      validation lets in and read-back drops. */
  lemma ReadKeepsAcceptedBlocks(l: LinkState, oauthEnabled: bool)
    requires SchemaAllows(l) && Validate(l, oauthEnabled).None?
    ensures SameBlocks(ReadBack(l), l) <==>
            !(l.mode == BIDIRECTIONAL && l.connection == INBOUND && CredentialsOf(l.remote).Some?)
  {
    ReadKeepsBlocks(l);
    ValidateByRole(l, oauthEnabled);
  }

  /** Reading again changes nothing and ends alike, whether the link is there or gone and whatever fails. */
  lemma ReadTwice(w: World, isNew: bool, f: Faults)
    ensures ReadStep(ReadStep(w, isNew, f).0, isNew, f) == ReadStep(w, isNew, f)
  {
    hide WithBlocks, Overrides, ClientFor, MetadataOf;
    var key := KeyFor(w.state);
    if key in w.links {
      var link := w.links[key];
      WrittenTwice(w.state, link.linkId, Overrides(link.configs), CompositeId(key.clusterId, key.name));
      WrittenTwice(w.state, link.linkId, w.state.configs, w.state.id);
      BlocksOnly(w.state, key.name, w.state.mode, w.state.connection, link.linkId, MetadataOf(w.state));
    } else {
      ClientIgnoresId(w.state);
    }
  }

  lemma ClientIgnoresId(l: LinkState)
    ensures ClientFor(l.(id := "")) == ClientFor(l)
  {
  }
}
