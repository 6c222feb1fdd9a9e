/** Whether the server logs in with the credentials the state shows. The server never gives
    credentials back, so no read can repair a disagreement. */
module ClusterLinkLogins {
  import opened Wrappers
  import opened ConfigLists
  import opened ClusterLinkSchema
  import opened ClusterLinkRequest
  import opened ClusterLinkLifecycle
  import opened ClusterLinkProperties
  import opened ClusterLinkRuns

  /** The settings hold these values, whatever else they hold. */
  predicate HoldsAll(configs: map<string, Setting>, entries: map<string, string>) {
    forall n :: n in entries ==> n in configs && configs[n].value == entries[n]
  }

  /** Every connection entry the state calls for is on the server. */
  predicate Connected(w: World, key: LinkKey, o: OAuth) {
    key in w.links && HoldsAll(w.links[key].configs, ConnectionConfig(w.state, o))
  }

  /** Every credential entry the state calls for is on the server. */
  predicate LoginAgrees(w: World, key: LinkKey, o: OAuth) {
    key in w.links && HoldsAll(w.links[key].configs, CredentialEntries(w.state, o))
  }

  // ---- What the entries depend on ----

  /** The same modes, the same far endpoint and, where the link opens the connection, the same blocks. */
  predicate ConnectAlike(k: LinkState, l: LinkState) {
    && k.mode == l.mode && OpensConnection(k) == OpensConnection(l)
    && BootstrapOf(Far(k)) == BootstrapOf(Far(l))
    && (OpensConnection(l) ==> Flatten(Near(k)) == Flatten(Near(l)) && Flatten(Far(k)) == Flatten(Far(l)))
  }

  /** The connection depends only on the mode and on what the blocks flatten to. */
  lemma AlikeConnect(k: LinkState, l: LinkState, o: OAuth)
    requires ConnectAlike(k, l)
    ensures ConnectionConfig(k, o) == ConnectionConfig(l, o)
  {
    assert SentMode(k) == SentMode(l);
    hide Login, Modes, Protocol, Near, Far, OpensConnection, SentMode;
  }

  /** A block is read back without credentials only where the connection needs none. */
  lemma ReadBackConnectsAlike(l: LinkState, linkId: string, configs: map<string, string>, id: string, o: OAuth)
    ensures var k := WithBlocks(l, l.name, l.mode, l.connection, linkId, MetadataOf(l)).(configs := configs, id := id);
            ConnectionConfig(k, o) == ConnectionConfig(l, o)
  {
    hide ConnectionConfig;
    var k := WithBlocks(l, l.name, l.mode, l.connection, linkId, MetadataOf(l)).(configs := configs, id := id);
    RebuiltTwice(Flatten(Near(l)), true);
    RebuiltTwice(Flatten(Far(l)), true);
    BootstrapOfRebuilt(Flatten(Far(l)));
    AlikeConnect(k, l, o);
  }

  lemma BootstrapOfRebuilt(e: Endpoint)
    ensures forall keep :: BootstrapOf(Rebuilt(e, keep)) == e.bootstrapEndpoint
  {
  }

  lemma SameBlockFlattensAlike(b: Option<Block>, c: Option<Block>)
    requires SameEndpoints(b, c) && CredentialsOf(b) == CredentialsOf(c)
    ensures Flatten(b) == Flatten(c)
  {
  }

  lemma SameCredentialsConnectAlike(before: LinkState, planned: LinkState, o: OAuth)
    requires InPlace(before, planned) && !CredentialsChange(before, planned)
    ensures ConnectionConfig(planned, o) == ConnectionConfig(before, o)
  {
    hide ConnectionConfig, SameEndpoints, CredentialsOf, IdOf, RestOf, KeyOf, SecretOf;
    SameBlockFlattensAlike(before.source, planned.source);
    SameBlockFlattensAlike(before.destination, planned.destination);
    SameBlockFlattensAlike(before.local, planned.local);
    SameBlockFlattensAlike(before.remote, planned.remote);
    AlikeConnect(planned, before, o);
  }

  // ---- Steps ----

  /** The event changes the credentials in the state. */
  predicate Rotates(w: World, e: Event) {
    e.Change? && CredentialsChange(w.state, e.planned)
  }

  /** Whether the login agrees after an event, given whether it does before. */
  predicate LoginAfter(w: World, e: Event, o: OAuth, key: LinkKey, before: bool) {
    if Rotates(w, e) then
      !e.f.alterCredentials
      || (key in w.links && HoldsAll(w.links[key].configs, CredentialEntries(e.planned, o)))
    else before
  }

  lemma OverlayHolds(configs: map<string, Setting>, entries: map<string, string>, sent: map<string, string>)
    requires entries.Keys !! sent.Keys
    ensures HoldsAll(Overlay(configs, sent), entries) <==> HoldsAll(configs, entries)
  {
  }

  lemma OverlaidHolds(configs: map<string, Setting>, sent: map<string, string>)
    ensures HoldsAll(Overlay(configs, sent), sent)
  {
  }

  lemma CredentialEntriesAreNotEditable(l: LinkState, o: OAuth)
    ensures CredentialEntries(l, o).Keys !! EDITABLE
  {
    hide ConnectionConfig;
    CredentialsAreNotEditable();
  }

  lemma ReadKeepsLogin(w: World, isNew: bool, f: Faults, o: OAuth, key: LinkKey, others: Links)
    requires Owns(w, key, others)
    ensures var w' := ReadStep(w, isNew, f).0;
            w'.links == w.links && CredentialEntries(w'.state, o) == CredentialEntries(w.state, o)
            && ConnectionConfig(w'.state, o) == ConnectionConfig(w.state, o)
  {
    hide ConnectionConfig, Overrides, CompositeId, WithBlocks, MetadataOf;
    var link := w.links[key];
    ReadBackConnectsAlike(w.state, link.linkId, Overrides(link.configs), CompositeId(key.clusterId, key.name), o);
    BlocksOnly(w.state, key.name, w.state.mode, w.state.connection, link.linkId, MetadataOf(w.state));
    ReadBackConnectsAlike(w.state, link.linkId, w.state.configs, w.state.id, o);
  }

  /** A created link is on the server with every connection entry of its modes, far endpoint and credentials. */
  lemma CreatedLinkIsConnected(w: World, planned: LinkState, o: OAuth, birth: Birth, f: Faults)
    requires planned.configs.Keys <= EDITABLE && CreateStep(w, planned, o, birth, f).1 == Done
    ensures Connected(CreateStep(w, planned, o, birth, f).0, KeyFor(planned), o)
  {
    hide ReadStep, ConnectionConfig, Validate, CompositeId, HoldsAll, Overlay;
    var key := KeyFor(planned);
    var connection := ConnectionConfig(planned, o);
    ConnectionNamesAreGenerated(planned, o);
    GeneratedAreNotEditable();
    UnionHolds(birth.defaults, connection, planned.configs);
    var links := w.links[key := ServerLink(birth.linkId, Overlay(birth.defaults, connection + planned.configs))];
    var created := World(links, planned.(id := CompositeId(key.clusterId, key.name)));
    ReadKeepsLogin(created, true, f, o, key, links - {key});
    IdDoesNotConnect(planned, CompositeId(key.clusterId, key.name), o);
  }

  lemma UnionHolds(configs: map<string, Setting>, m: map<string, string>, n: map<string, string>)
    requires m.Keys !! n.Keys
    ensures HoldsAll(Overlay(configs, m + n), m)
  {
  }

  lemma IdDoesNotConnect(l: LinkState, id: string, o: OAuth)
    ensures ConnectionConfig(l.(id := id), o) == ConnectionConfig(l, o)
  {
    hide Login, Modes, Protocol;
  }

  /** Exactly when the server logs in with the planned credentials after an update, failed or not: if
      they change, when they are sent or the server holds them anyway; if not, when it did before. */
  lemma UpdateKeepsLogin(w: World, planned: LinkState, o: OAuth, f: Faults, key: LinkKey, others: Links)
    requires Owns(w, key, others) && InPlace(w.state, planned)
    ensures LoginAgrees(UpdateStep(w, planned, o, f).0, key, o) <==>
            LoginAfter(w, Change(planned, f), o, key, LoginAgrees(w, key, o))
  {
    hide ConnectionConfig, CredentialsChange, KeyFor, ReadStep, HoldsAll, Overlay, InPlace;
    InPlaceKeepsKey(w.state, planned);
    InPlaceMeans(w.state, planned);
    CredentialsAreSentOutbound(planned, o);
    var entries := CredentialEntries(planned, o);
    var sent := SendCredentials(w.links, w.state, planned, o, f);
    if CredentialsChange(w.state, planned) {
      OverlaidHolds(w.links[key].configs, entries);
    } else {
      SameCredentialsConnectAlike(w.state, planned, o);
    }
    if sent.Ok? {
      var landed := SendConfigs(sent.value, w.state, planned, f);
      CredentialEntriesAreNotEditable(planned, o);
      OverlayHolds(sent.value[key].configs, entries, planned.configs);
      if landed.Ok? {
        ReadKeepsLogin(World(landed.value, planned), false, f, o, key, landed.value - {key});
      }
    } else {
      NothingHolds(w.links[key].configs, entries);
    }
  }

  lemma NothingHolds(configs: map<string, Setting>, entries: map<string, string>)
    ensures entries == map[] ==> HoldsAll(configs, entries)
  {
  }

  lemma InPlaceMeans(before: LinkState, planned: LinkState)
    requires InPlace(before, planned)
    ensures planned.configs.Keys <= EDITABLE && OnlyBlocksAndConfigsChange(before, planned)
  {
  }

  // ---- Runs ----

  lemma StepKeepsLogin(w: World, e: Event, o: OAuth, key: LinkKey, others: Links)
    requires Owns(w, key, others) && Allowed(w, e)
    ensures LoginAgrees(StepOf(w, e, o).0, key, o) <==> LoginAfter(w, e, o, key, LoginAgrees(w, key, o))
  {
    hide CredentialEntries, ReadStep, UpdateStep, HoldsAll, InPlace, CredentialsChange;
    match e
    case Refresh(f) => ReadKeepsLogin(w, false, f, o, key, others);
    case Change(planned, f) => UpdateKeepsLogin(w, planned, o, f, key, others);
  }

  /** Whether the login agrees after a run: only the last change of credentials decides. */
  predicate LoginFate(w: World, events: seq<Event>, o: OAuth, key: LinkKey, before: bool)
    decreases |events|
  {
    if events == [] then before
    else LoginFate(StepOf(w, events[0], o).0, events[1..], o, key, LoginAfter(w, events[0], o, key, before))
  }

  /** Over any run, whatever fails in it, the server logs in with the credentials of the state exactly
      when their last change was sent or the server held them anyway, or, if they never changed, when
      it did at the start. */
  lemma {:induction false} RunKeepsLogin(w: World, last: Outcome, events: seq<Event>, o: OAuth,
                                         key: LinkKey, others: Links)
    requires Owns(w, key, others) && AllowedRun(w, events, o)
    ensures LoginAgrees(Run(w, last, events, o).0, key, o) <==> LoginFate(w, events, o, key, LoginAgrees(w, key, o))
    decreases |events|
  {
    hide LoginAgrees, LoginAfter, Owns, Allowed, StepOf, Agrees, OverridesAt, LandedBy;
    if events != [] {
      StepOwns(w, events[0], o, key, others);
      StepKeepsLogin(w, events[0], o, key, others);
      var (w', out) := StepOf(w, events[0], o);
      RunKeepsLogin(w', out, events[1..], o, key, others);
    }
  }

  /** The last change of credentials in a run was sent to the server, if there was any. */
  predicate LastRotationSent(w: World, events: seq<Event>, o: OAuth)
    decreases |events|
  {
    events != [] ==>
      var w' := StepOf(w, events[0], o).0;
      && LastRotationSent(w', events[1..], o)
      && (Rotates(w, events[0]) && events[0].f.alterCredentials ==> LaterRotation(w', events[1..], o))
  }

  /** The credentials change somewhere in the run. */
  predicate LaterRotation(w: World, events: seq<Event>, o: OAuth)
    decreases |events|
  {
    events != [] && (Rotates(w, events[0]) || LaterRotation(StepOf(w, events[0], o).0, events[1..], o))
  }

  lemma {:induction false} SentRotationDecides(w: World, events: seq<Event>, o: OAuth, key: LinkKey, before: bool)
    requires LastRotationSent(w, events, o) && (before || LaterRotation(w, events, o))
    ensures LoginFate(w, events, o, key, before)
    decreases |events|
  {
    hide StepOf, Rotates, HoldsAll;
    if events != [] {
      SentRotationDecides(StepOf(w, events[0], o).0, events[1..], o, key, LoginAfter(w, events[0], o, key, before));
    }
  }

  // ---- The whole connection ----

  function Without(m: map<string, string>, names: set<string>): map<string, string> {
    map n | n in m && n !in names :: m[n]
  }

  /** The connection entries that a change of credentials does not send. */
  function StandingEntries(l: LinkState, o: OAuth): map<string, string> {
    Without(ConnectionConfig(l, o), CREDENTIAL_NAMES)
  }

  lemma WithoutUnion(m: map<string, string>, n: map<string, string>, names: set<string>)
    ensures Without(m + n, names) == Without(m, names) + Without(n, names)
  {
  }

  /** What a login says besides what is sent again depends on nobody's credentials. */
  lemma LoginStands(near: bool, a: Endpoint, b: Endpoint, o: OAuth)
    ensures Without(Login(near, a.id, a.key, a.secret, o), CREDENTIAL_NAMES)
            == Without(Login(near, b.id, b.key, b.secret, o), CREDENTIAL_NAMES)
  {
    NameLengths();
  }

  /** An in-place update, whatever credentials it brings, changes no entry but those it sends. */
  lemma StandingEntriesStand(before: LinkState, planned: LinkState, o: OAuth)
    requires InPlace(before, planned)
    ensures StandingEntries(planned, o) == StandingEntries(before, o)
  {
    var k, l, c := planned, before, CREDENTIAL_NAMES;
    assert SentMode(k) == SentMode(l) && OpensConnection(k) == OpensConnection(l) && k.mode == l.mode;
    assert BootstrapOf(Far(k)) == BootstrapOf(Far(l));
    if OpensConnection(k) {
      var nearK, nearL, farK, farL := Flatten(Near(k)), Flatten(Near(l)), Flatten(Far(k)), Flatten(Far(l));
      LoginStands(true, nearK, nearL, o);
      LoginStands(false, farK, farL, o);
      var modes := Modes(SentMode(k), OUTBOUND, BootstrapOf(Far(k)));
      var loginK := Login(false, farK.id, farK.key, farK.secret, o);
      var loginL := Login(false, farL.id, farL.key, farL.secret, o);
      hide Login, Modes, Protocol, Near, Far, OpensConnection, SentMode, InPlace, Without;
      if k.mode == DESTINATION {
        WithoutUnion(modes + Protocol(false), loginK, c);
        WithoutUnion(modes + Protocol(false), loginL, c);
      } else {
        var start := (if k.mode == BIDIRECTIONAL then modes + map[REMOTE_CONNECTION_MODE := INBOUND] else modes)
                     + (Protocol(true) + Protocol(false));
        var ownK := Login(true, nearK.id, nearK.key, nearK.secret, o);
        var ownL := Login(true, nearL.id, nearL.key, nearL.secret, o);
        WithoutUnion(start, ownK, c);
        WithoutUnion(start, ownL, c);
        WithoutUnion(start + ownK, loginK, c);
        WithoutUnion(start + ownL, loginL, c);
      }
    }
  }

  lemma WholeIsBothParts(configs: map<string, Setting>, whole: map<string, string>, names: set<string>)
    ensures HoldsAll(configs, whole) <==>
            HoldsAll(configs, Without(whole, names)) && HoldsAll(configs, Restrict(whole, names))
  {
  }

  /** A link that is connected stays so when its credentials change and are sent: what an update sends
      leaves out no entry that changed. */
  lemma RotationReconnects(links: Links, before: LinkState, planned: LinkState, o: OAuth, f: Faults)
    requires InPlace(before, planned) && KeyFor(planned) in links
    requires HoldsAll(links[KeyFor(planned)].configs, ConnectionConfig(before, o))
    requires SendCredentials(links, before, planned, o, f).Ok?
    ensures var sent := SendCredentials(links, before, planned, o, f).value;
            KeyFor(planned) in sent && HoldsAll(sent[KeyFor(planned)].configs, ConnectionConfig(planned, o))
  {
    hide ConnectionConfig, CredentialsChange, KeyFor, HoldsAll, Overlay, InPlace, Without, ConfigLists.Restrict;
    var key := KeyFor(planned);
    var configs := links[key].configs;
    if CredentialsChange(before, planned) {
      var entries := CredentialEntries(planned, o);
      WholeIsBothParts(configs, ConnectionConfig(before, o), CREDENTIAL_NAMES);
      StandingEntriesStand(before, planned, o);
      PartsAreApart(ConnectionConfig(planned, o), CREDENTIAL_NAMES);
      OverlayHolds(configs, StandingEntries(planned, o), entries);
      OverlaidHolds(configs, entries);
      WholeIsBothParts(Overlay(configs, entries), ConnectionConfig(planned, o), CREDENTIAL_NAMES);
    } else {
      SameCredentialsConnectAlike(before, planned, o);
    }
  }

  lemma PartsAreApart(whole: map<string, string>, names: set<string>)
    ensures Without(whole, names).Keys !! Restrict(whole, names).Keys
  {
  }

  /** Every standing entry the state calls for is on the server. */
  predicate Stands(w: World, key: LinkKey, o: OAuth) {
    key in w.links && HoldsAll(w.links[key].configs, StandingEntries(w.state, o))
  }

  lemma StandingIsNotSent(l: LinkState, o: OAuth)
    ensures StandingEntries(l, o).Keys !! EDITABLE && StandingEntries(l, o).Keys !! CredentialEntries(l, o).Keys
  {
    ConnectionNamesAreGenerated(l, o);
    GeneratedAreNotEditable();
  }

  lemma UpdateStands(w: World, planned: LinkState, o: OAuth, f: Faults, key: LinkKey, others: Links)
    requires Owns(w, key, others) && InPlace(w.state, planned) && Stands(w, key, o)
    ensures Stands(UpdateStep(w, planned, o, f).0, key, o)
  {
    hide ConnectionConfig, CredentialsChange, KeyFor, ReadStep, HoldsAll, Overlay, InPlace, CredentialEntries, Without;
    InPlaceKeepsKey(w.state, planned);
    InPlaceMeans(w.state, planned);
    StandingEntriesStand(w.state, planned, o);
    StandingIsNotSent(planned, o);
    var standing := StandingEntries(planned, o);
    var sent := SendCredentials(w.links, w.state, planned, o, f);
    OverlayHolds(w.links[key].configs, standing, CredentialEntries(planned, o));
    if sent.Ok? {
      var landed := SendConfigs(sent.value, w.state, planned, f);
      OverlayHolds(sent.value[key].configs, standing, planned.configs);
      if landed.Ok? {
        ReadKeepsLogin(World(landed.value, planned), false, f, o, key, landed.value - {key});
      }
    }
  }

  lemma StepStands(w: World, e: Event, o: OAuth, key: LinkKey, others: Links)
    requires Owns(w, key, others) && Allowed(w, e) && Stands(w, key, o)
    ensures Stands(StepOf(w, e, o).0, key, o)
  {
    hide ConnectionConfig, ReadStep, UpdateStep, HoldsAll, InPlace;
    match e
    case Refresh(f) => ReadKeepsLogin(w, false, f, o, key, others);
    case Change(planned, f) => UpdateStands(w, planned, o, f, key, others);
  }

  lemma {:induction false} RunStands(w: World, last: Outcome, events: seq<Event>, o: OAuth, key: LinkKey, others: Links)
    requires Owns(w, key, others) && AllowedRun(w, events, o) && Stands(w, key, o)
    ensures Stands(Run(w, last, events, o).0, key, o)
    decreases |events|
  {
    hide Stands, Owns, Allowed, StepOf, Agrees, OverridesAt, LandedBy;
    if events != [] {
      StepOwns(w, events[0], o, key, others);
      StepStands(w, events[0], o, key, others);
      var (w', out) := StepOf(w, events[0], o);
      RunStands(w', out, events[1..], o, key, others);
    }
  }

  lemma ConnectedIsBoth(w: World, key: LinkKey, o: OAuth)
    ensures Connected(w, key, o) <==> Stands(w, key, o) && LoginAgrees(w, key, o)
  {
    hide ConnectionConfig, HoldsAll;
    if key in w.links {
      WholeIsBothParts(w.links[key].configs, ConnectionConfig(w.state, o), CREDENTIAL_NAMES);
    }
  }

  /** The life of a connection: from creation through any run, the server has every connection entry
      that the state calls for, credentials or not, exactly as the last change of credentials decides,
      and in any case when it was sent. */
  lemma LoginLife(w: World, planned: LinkState, o: OAuth, birth: Birth, f: Faults, events: seq<Event>)
    requires planned.configs.Keys <= EDITABLE
    requires CreateStep(w, planned, o, birth, f).1 == Done
    requires AllowedRun(CreateStep(w, planned, o, birth, f).0, events, o)
    ensures var created, key := CreateStep(w, planned, o, birth, f).0, KeyFor(planned);
            var w' := Run(created, Done, events, o).0;
            && (Connected(w', key, o) <==> LoginFate(created, events, o, key, true))
            && (LoginAgrees(w', key, o) <==> LoginFate(created, events, o, key, true))
            && (LastRotationSent(created, events, o) ==> Connected(w', key, o))
  {
    hide CreateStep, AllowedRun, Run, LastRotationSent, LoginFate, Connected, LoginAgrees, Stands;
    var created, key := CreateStep(w, planned, o, birth, f).0, KeyFor(planned);
    CreateOwns(w, planned, o, birth, f);
    CreatedLinkIsConnected(w, planned, o, birth, f);
    ConnectedIsBoth(created, key, o);
    RunKeepsLogin(created, Done, events, o, key, w.links);
    RunStands(created, Done, events, o, key, w.links);
    ConnectedIsBoth(Run(created, Done, events, o).0, key, o);
    if LastRotationSent(created, events, o) {
      SentRotationDecides(created, events, o, key, true);
    }
  }

  /** When sending the credentials fails, they are lost for good: the state keeps them, and applying
      the same configuration again succeeds without sending them, so the server stays as it was. */
  lemma FailedRotationIsLost(w: World, planned: LinkState, o: OAuth, f: Faults, g: Faults, key: LinkKey, others: Links)
    requires Owns(w, key, others) && InPlace(w.state, planned)
    requires CredentialsChange(w.state, planned) && OpensConnection(planned)
    requires f.alterCredentials && !g.get && !g.list
    ensures var (failed, out) := UpdateStep(w, planned, o, f);
            var (again, out') := UpdateStep(failed, planned, o, g);
            && out == Failed(ApiFailure) && out' == Done && again.links == w.links
            && CredentialEntries(again.state, o) == CredentialEntries(planned, o)
            && (LoginAgrees(again, key, o) <==> HoldsAll(w.links[key].configs, CredentialEntries(planned, o)))
  {
    hide ConnectionConfig, KeyFor, ReadStep, HoldsAll, InPlace, Agrees;
    InPlaceKeepsKey(w.state, planned);
    InPlaceMeans(w.state, planned);
    CredentialsAreSentOutbound(planned, o);
    var failed := World(w.links, planned);
    ReadOwns(failed, key, others, false, g);
    ReadKeepsLogin(failed, false, g, o, key, others);
  }
}
