/** Agreement between the Terraform state and the server over whole lives of a cluster link. */
module ClusterLinkRuns {
  import opened Wrappers
  import opened ConfigLists
  import opened ClusterLinkSchema
  import opened ClusterLinkRequest
  import opened ClusterLinkLifecycle
  import opened ClusterLinkProperties

  // ---- Runs ----

  datatype Event =
    | Refresh(f: Faults)
    | Change(planned: LinkState, f: Faults)

  function StepOf(w: World, e: Event, o: OAuth): (World, Outcome) {
    match e
    case Refresh(f) => ReadStep(w, false, f)
    case Change(planned, f) => UpdateStep(w, planned, o, f)
  }

  predicate SameEndpoints(b: Option<Block>, c: Option<Block>) {
    IdOf(b) == IdOf(c) && RestOf(b) == RestOf(c) && BootstrapOf(b) == BootstrapOf(c)
  }

  /** What Terraform hands to an in-place update: every attribute that forces replacement is as it
      was, and the settings passed their validator. */
  predicate InPlace(before: LinkState, planned: LinkState) {
    && OnlyBlocksAndConfigsChange(before, planned)
    && SameEndpoints(before.source, planned.source) && SameEndpoints(before.destination, planned.destination)
    && SameEndpoints(before.local, planned.local) && SameEndpoints(before.remote, planned.remote)
    && planned.configs.Keys <= EDITABLE
  }

  predicate Allowed(w: World, e: Event) {
    e.Change? ==> InPlace(w.state, e.planned)
  }

  predicate AllowedRun(w: World, events: seq<Event>, o: OAuth)
    decreases |events|
  {
    events != [] ==> Allowed(w, events[0]) && AllowedRun(StepOf(w, events[0], o).0, events[1..], o)
  }

  /** The world after the events, and how the last of them ended. */
  function Run(w: World, last: Outcome, events: seq<Event>, o: OAuth): (World, Outcome)
    decreases |events|
  {
    if events == [] then (w, last)
    else
      var (w', out) := StepOf(w, events[0], o);
      Run(w', out, events[1..], o)
  }

  // ---- Server settings under the provider's requests ----

  lemma OverridesOfOverlay(configs: map<string, Setting>, entries: map<string, string>, names: set<string>)
    ensures OverridesAmong(Overlay(configs, entries), names)
            == OverridesAmong(configs, names) + Restrict(entries, names)
  {
  }

  function OverridesAt(links: Links, key: LinkKey): map<string, string>
    requires key in links
  {
    Overrides(links[key].configs)
  }

  /** Sending credentials never touches an editable setting. */
  lemma CredentialsKeepOverrides(links: Links, before: LinkState, planned: LinkState, o: OAuth, f: Faults)
    requires SendCredentials(links, before, planned, o, f).Ok? && KeyFor(planned) in links
    ensures var sent := SendCredentials(links, before, planned, o, f).value;
            var key := KeyFor(planned);
            && key in sent && OverridesAt(sent, key) == OverridesAt(links, key)
            && sent - {key} == links - {key}
            && sent[key].linkId == links[key].linkId
  {
    hide ConnectionConfig, KeyFor;
    if CredentialsChange(before, planned) {
      var key := KeyFor(planned);
      CredentialsAreNotEditable();
      EntriesOutside(links[key].configs, ConnectionConfig(planned, o), CREDENTIAL_NAMES, EDITABLE);
    }
  }

  lemma EntriesOutside(configs: map<string, Setting>, entries: map<string, string>, sent: set<string>,
                       names: set<string>)
    requires sent !! names
    ensures OverridesAmong(Overlay(configs, Restrict(entries, sent)), names) == OverridesAmong(configs, names)
  {
    OverridesOfOverlay(configs, Restrict(entries, sent), names);
    assert Restrict(Restrict(entries, sent), names) == map[];
  }

  /** Sending settings overlays exactly them. */
  lemma ConfigsOverlayOverrides(links: Links, before: LinkState, planned: LinkState, f: Faults)
    requires SendConfigs(links, before, planned, f).Ok? && KeyFor(planned) in links
    requires planned.configs.Keys <= EDITABLE
    ensures var sent := SendConfigs(links, before, planned, f).value;
            var key := KeyFor(planned);
            && key in sent && sent - {key} == links - {key}
            && OverridesAt(sent, key)
               == (if before.configs == planned.configs then OverridesAt(links, key)
                   else OverridesAt(links, key) + planned.configs)
            && sent[key].linkId == links[key].linkId
  {
    hide KeyFor;
    var key := KeyFor(planned);
    RestrictWithin(planned.configs, EDITABLE);
    OverridesOfOverlay(links[key].configs, planned.configs, EDITABLE);
  }

  lemma RestrictWithin(m: map<string, string>, names: set<string>)
    requires m.Keys <= names
    ensures Restrict(m, names) == m
  {
  }

  // ---- One step ----

  /** The link the state is about exists, and all other links are as given. */
  predicate Owns(w: World, key: LinkKey, others: Links) {
    KeyFor(w.state) == key && key in w.links && w.links - {key} == others
  }

  /** The state says of its link what the server says. */
  predicate Agrees(w: World, key: LinkKey)
    requires key in w.links
  {
    && w.state.configs == OverridesAt(w.links, key)
    && w.state.id == CompositeId(key.clusterId, key.name)
    && w.state.linkId == w.links[key].linkId
    && w.state.name == key.name
  }

  lemma ReadOwns(w: World, key: LinkKey, others: Links, isNew: bool, f: Faults)
    requires Owns(w, key, others)
    ensures var (w', out) := ReadStep(w, isNew, f);
            && Owns(w', key, others) && w'.links == w.links
            && (out == Done ==> Agrees(w', key) && w'.state == ReadBack(w.state).(
                  linkId := w.links[key].linkId, configs := OverridesAt(w.links, key),
                  id := CompositeId(key.clusterId, key.name)))
            && (out == Done <==> !f.get && !f.list)
  {
    hide Overrides, CompositeId;
    var link := w.links[key];
    WrittenTwice(w.state, link.linkId, Overrides(link.configs), CompositeId(key.clusterId, key.name));
    WrittenTwice(w.state, link.linkId, w.state.configs, w.state.id);
  }

  lemma InPlaceKeepsKey(before: LinkState, planned: LinkState)
    requires InPlace(before, planned)
    ensures KeyFor(planned) == KeyFor(before)
  {
  }

  /** The settings of an update that reach the server: all of them, or none. */
  function Landed(w: World, planned: LinkState, o: OAuth, f: Faults): map<string, string> {
    if w.state.configs == planned.configs then map[]
    else
      match SendCredentials(w.links, w.state, planned, o, f)
      case Err(_) => map[]
      case Ok(sent) => if SendConfigs(sent, w.state, planned, f).Ok? then planned.configs else map[]
  }

  lemma UpdateOwns(w: World, planned: LinkState, o: OAuth, f: Faults, key: LinkKey, others: Links)
    requires Owns(w, key, others) && InPlace(w.state, planned)
    ensures var (w', out) := UpdateStep(w, planned, o, f);
            && Owns(w', key, others)
            && OverridesAt(w'.links, key) == OverridesAt(w.links, key) + Landed(w, planned, o, f)
            && (out == Done ==> Agrees(w', key))
            && (out == Done && w.state.configs != planned.configs ==> Landed(w, planned, o, f) == planned.configs)
            && (out == Done && w.state.configs != planned.configs ==> w.state.configs.Keys <= planned.configs.Keys)
  {
    hide ReadStep, KeyFor, OverridesAt, Agrees, CredentialsChange, CredentialEntries, Altered;
    InPlaceKeepsKey(w.state, planned);
    var sent := SendCredentials(w.links, w.state, planned, o, f);
    if sent.Ok? {
      CredentialsKeepOverrides(w.links, w.state, planned, o, f);
      var landed := SendConfigs(sent.value, w.state, planned, f);
      if landed.Ok? {
        ConfigsOverlayOverrides(sent.value, w.state, planned, f);
        ReadOwns(World(landed.value, planned), key, others, false, f);
      }
    }
  }

  /** In a state that agrees with the server, a successful update reads back exactly the planned settings. */
  lemma UpdateReadsBack(w: World, planned: LinkState, o: OAuth, f: Faults, key: LinkKey, others: Links)
    requires Owns(w, key, others) && Agrees(w, key) && InPlace(w.state, planned)
    requires UpdateStep(w, planned, o, f).1 == Done
    ensures UpdateStep(w, planned, o, f).0.state.configs == planned.configs
    ensures OverridesAt(UpdateStep(w, planned, o, f).0.links, key) == planned.configs
  {
    hide UpdateStep, OverridesAt;
    UpdateOwns(w, planned, o, f, key, others);
    assert w.state.configs + map[] == w.state.configs;
    assert w.state.configs.Keys <= planned.configs.Keys ==> w.state.configs + planned.configs == planned.configs;
  }

  /** Removing a setting is refused, after the credentials of the same update have been sent and
      with every editable setting as it was. */
  lemma RemovalIsRefused(w: World, planned: LinkState, o: OAuth, f: Faults, key: LinkKey, others: Links)
    requires Owns(w, key, others) && InPlace(w.state, planned)
    ensures var (w', out) := UpdateStep(w, planned, o, f);
            && (out == Failed(SettingRemoved) <==>
                  && !(w.state.configs.Keys <= planned.configs.Keys)
                  && (CredentialsChange(w.state, planned) ==> OpensConnection(planned) && !f.alterCredentials))
            && (out == Failed(SettingRemoved) ==>
                  && w'.links == (if CredentialsChange(w.state, planned)
                                  then Altered(w.links, key, CredentialEntries(planned, o)) else w.links)
                  && OverridesAt(w'.links, key) == OverridesAt(w.links, key))
  {
    hide ConnectionConfig, OverridesAt, KeyFor, OpensConnection, CredentialEntries, Altered, CredentialsChange;
    hide ReadStep;
    InPlaceKeepsKey(w.state, planned);
    CredentialsAreSentOutbound(planned, o);
    UpdateOwns(w, planned, o, f, key, others);
    NeverRemoved(w, planned, o, f, key, others);
  }

  lemma NeverRemoved(w: World, planned: LinkState, o: OAuth, f: Faults, key: LinkKey, others: Links)
    requires Owns(w, key, others) && InPlace(w.state, planned)
    ensures forall links :: ReadStep(World(links, planned), false, f).1 != Failed(SettingRemoved)
  {
  }

  // ---- Whole runs ----

  function LandedBy(w: World, e: Event, o: OAuth): map<string, string> {
    match e
    case Refresh(_) => map[]
    case Change(planned, f) => Landed(w, planned, o, f)
  }

  /** The settings that reached the server in a run, later ones over earlier ones. */
  function Ledger(w: World, events: seq<Event>, o: OAuth): map<string, string>
    decreases |events|
  {
    if events == [] then map[]
    else LandedBy(w, events[0], o) + Ledger(StepOf(w, events[0], o).0, events[1..], o)
  }

  lemma StepOwns(w: World, e: Event, o: OAuth, key: LinkKey, others: Links)
    requires Owns(w, key, others) && Allowed(w, e)
    ensures var (w', out) := StepOf(w, e, o);
            && Owns(w', key, others)
            && OverridesAt(w'.links, key) == OverridesAt(w.links, key) + LandedBy(w, e, o)
            && (out == Done ==> Agrees(w', key))
  {
    hide ReadStep, UpdateStep, OverridesAt, Agrees, InPlace;
    match e
    case Refresh(f) => ReadOwns(w, key, others, false, f);
    case Change(planned, f) => UpdateOwns(w, planned, o, f, key, others);
  }

  lemma {:induction false} RunOwns(w: World, last: Outcome, events: seq<Event>, o: OAuth, key: LinkKey, others: Links)
    requires Owns(w, key, others) && AllowedRun(w, events, o)
    requires last == Done ==> Agrees(w, key)
    ensures var (w', out) := Run(w, last, events, o);
            && Owns(w', key, others)
            && OverridesAt(w'.links, key) == OverridesAt(w.links, key) + Ledger(w, events, o)
            && (out == Done ==> Agrees(w', key))
    decreases |events|
  {
    hide StepOf, Allowed, Owns, OverridesAt, Agrees, LandedBy;
    if events != [] {
      StepOwns(w, events[0], o, key, others);
      var (w', out) := StepOf(w, events[0], o);
      RunOwns(w', out, events[1..], o, key, others);
    }
  }

  /** No run of reads and updates ever removes an overridden setting from the server. */
  lemma RunNeverShrinks(w: World, last: Outcome, events: seq<Event>, o: OAuth, key: LinkKey, others: Links)
    requires Owns(w, key, others) && AllowedRun(w, events, o)
    ensures Owns(Run(w, last, events, o).0, key, others)
    ensures OverridesAt(w.links, key).Keys <= OverridesAt(Run(w, last, events, o).0.links, key).Keys
  {
    hide Run, AllowedRun, Ledger, Agrees, OverridesAt;
    RunIgnoresStart(w, last, events, o);
    RunOwns(w, Failed(ApiFailure), events, o, key, others);
  }

  lemma RunIgnoresStart(w: World, last: Outcome, events: seq<Event>, o: OAuth)
    ensures Run(w, last, events, o).0 == Run(w, Failed(ApiFailure), events, o).0
  {
  }

  lemma CreateOwns(w: World, planned: LinkState, o: OAuth, birth: Birth, f: Faults)
    requires planned.configs.Keys <= EDITABLE && CreateStep(w, planned, o, birth, f).1 == Done
    ensures var w' := CreateStep(w, planned, o, birth, f).0;
            var key := KeyFor(planned);
            && Owns(w', key, w.links) && Agrees(w', key)
            && OverridesAt(w'.links, key) == Overrides(birth.defaults) + planned.configs
            && w'.state == ReadBack(planned).(linkId := birth.linkId, configs := OverridesAt(w'.links, key),
                                              id := CompositeId(key.clusterId, key.name))
  {
    hide ReadStep, ConnectionConfig, Validate, Agrees, CompositeId, Overlay;
    var key := KeyFor(planned);
    var entries := ConnectionConfig(planned, o) + planned.configs;
    ConnectionNamesAreGenerated(planned, o);
    GeneratedAreNotEditable();
    SettingsOfBirth(birth.defaults, ConnectionConfig(planned, o), planned.configs, GENERATED, EDITABLE);
    var links := w.links[key := ServerLink(birth.linkId, Overlay(birth.defaults, entries))];
    var created := World(links, planned.(id := CompositeId(key.clusterId, key.name)));
    assert links - {key} == w.links;
    ReadOwns(created, key, w.links, true, f);
  }

  lemma SettingsOfBirth(defaults: map<string, Setting>, generated: map<string, string>, settings: map<string, string>,
                        generatedNames: set<string>, names: set<string>)
    requires generated.Keys <= generatedNames && generatedNames !! names && settings.Keys <= names
    ensures OverridesAmong(Overlay(defaults, generated + settings), names)
            == OverridesAmong(defaults, names) + settings
  {
    OverridesOfOverlay(defaults, generated + settings, names);
  }

  /** The life of a link changed only by the provider: after creation and any run of reads and
      updates, failed ones among them, the server holds the overrides born with, under the settings
      created with, under those that landed since; whenever the last step succeeded the state agrees
      with the server; no other link was touched; and deletion restores the server as it was before
      creation. */
  lemma LinkLife(w: World, planned: LinkState, o: OAuth, birth: Birth, f: Faults, events: seq<Event>, g: Faults)
    requires planned.configs.Keys <= EDITABLE && CreateStep(w, planned, o, birth, f).1 == Done
    requires AllowedRun(CreateStep(w, planned, o, birth, f).0, events, o)
    ensures var created := CreateStep(w, planned, o, birth, f).0;
            var key := KeyFor(planned);
            var (w', out) := Run(created, Done, events, o);
            && Owns(w', key, w.links)
            && OverridesAt(w'.links, key) == Overrides(birth.defaults) + planned.configs + Ledger(created, events, o)
            && (out == Done ==> Agrees(w', key))
            && (DeleteStep(w', g).1 == Done <==> !g.delete)
            && (DeleteStep(w', g).1 == Done ==> DeleteStep(w', g).0.links == w.links)
  {
    hide CreateStep, AllowedRun, Run, Ledger, OverridesAt, Agrees;
    CreateOwns(w, planned, o, birth, f);
    RunOwns(CreateStep(w, planned, o, birth, f).0, Done, events, o, KeyFor(planned), w.links);
  }

  // ---- What the steps do, said without them ----

  /** The server overrode this editable setting by itself when it created the link. */
  predicate BornOverridden(birth: Birth, n: string) {
    n in EDITABLE && n in birth.defaults && birth.defaults[n].source == "DYNAMIC_CLUSTER_LINK_CONFIG"
  }

  /** Exactly which settings a state shows after creation and any run, if the last step succeeded: those
      that landed in the run, those created with, and those the link was born with as overrides; a
      setting that merely has a default is not among them. */
  lemma ReadsBackOverridesOnly(w: World, planned: LinkState, o: OAuth, birth: Birth, f: Faults, events: seq<Event>)
    requires planned.configs.Keys <= EDITABLE && CreateStep(w, planned, o, birth, f).1 == Done
    requires AllowedRun(CreateStep(w, planned, o, birth, f).0, events, o)
    ensures var created := CreateStep(w, planned, o, birth, f).0;
            var (w', out) := Run(created, Done, events, o);
            var ledger := Ledger(created, events, o);
            out == Done ==>
              && (forall n :: n in w'.state.configs <==>
                    n in ledger || n in planned.configs || BornOverridden(birth, n))
              && (forall n :: n in w'.state.configs ==>
                    w'.state.configs[n] == if n in ledger then ledger[n]
                                           else if n in planned.configs then planned.configs[n]
                                           else birth.defaults[n].value)
  {
    hide CreateStep, AllowedRun, Run, Ledger;
    LinkLife(w, planned, o, birth, f, events, f);
    BornOverrides(birth);
  }

  lemma BornOverrides(birth: Birth)
    ensures forall n :: n in Overrides(birth.defaults) <==> BornOverridden(birth, n)
    ensures forall n :: n in Overrides(birth.defaults) ==> Overrides(birth.defaults)[n] == birth.defaults[n].value
  {
  }

  /** So a link born without overrides shows just the settings it was created with. */
  lemma CreatedShowsPlanned(w: World, planned: LinkState, o: OAuth, birth: Birth, f: Faults)
    requires planned.configs.Keys <= EDITABLE && CreateStep(w, planned, o, birth, f).1 == Done
    requires forall n :: !BornOverridden(birth, n)
    ensures CreateStep(w, planned, o, birth, f).0.state.configs == planned.configs
  {
    hide CreateStep, BornOverridden;
    CreateOwns(w, planned, o, birth, f);
    BornOverrides(birth);
    assert Overrides(birth.defaults) == map[];
  }

  /** How a creation ends. Refused or failed, it leaves the server alone; once sent, the link is there
      and the state has its id, even if reading it back fails. */
  lemma CreateOutcome(w: World, planned: LinkState, o: OAuth, birth: Birth, f: Faults)
    ensures var (w', out) := CreateStep(w, planned, o, birth, f);
            var key := LinkKey(IdOf(Near(planned)), planned.name);
            var sent := Validate(planned, o.enabled).None? && !f.create && key !in w.links;
            && (out == Done <==> sent && !f.get && !f.list)
            && (!sent ==> w' == World(w.links, planned))
            && (sent ==> key in w'.links && w'.links - {key} == w.links - {key} && w'.links[key].linkId == birth.linkId
                         && w'.state.id == CompositeId(key.clusterId, key.name))
            && (Validate(planned, o.enabled).Some? <==> out.Failed? && out.error.InvalidInput?)
  {
    ClientIsNear(planned);
    hide ConnectionConfig, Validate, ClientFor, Near, CompositeId, Overlay, Overrides, WithBlocks, MetadataOf;
    var m := MetadataOf(planned);
    BlocksOnly(planned, planned.name, planned.mode, planned.connection, birth.linkId, m);
    var id := CompositeId(KeyFor(planned).clusterId, planned.name);
    ClientIgnoresIds(planned, id);
    BlocksOnly(planned.(id := id), planned.name, planned.mode, planned.connection, birth.linkId,
               MetadataOf(planned.(id := id)));
  }

  lemma ClientIgnoresIds(l: LinkState, id: string)
    ensures ClientFor(l.(id := id)) == ClientFor(l)
  {
  }

  /** An update may change neither name nor modes nor the server's id of the link. */
  lemma ImmutableIsRefused(w: World, planned: LinkState, o: OAuth, f: Faults)
    ensures var same := w.state.name == planned.name && w.state.mode == planned.mode
                        && w.state.connection == planned.connection && w.state.linkId == planned.linkId;
            var (w', out) := UpdateStep(w, planned, o, f);
            && (out == Failed(ImmutableAttribute) <==> !same)
            && (!same ==> w' == World(w.links, planned))
  {
    hide ConnectionConfig, ClientFor, MetadataOf, WithBlocks, CredentialsChange;
  }

  /** A refresh of a link gone from the server forgets its id and nothing else; a new resource that is
      not there is an error. */
  lemma VanishedLinkIsForgotten(w: World, f: Faults)
    requires LinkKey(IdOf(Near(w.state)), w.state.name) !in w.links && !f.get
    ensures ReadStep(w, false, f) == (World(w.links, w.state.(id := "")), Done)
    ensures ReadStep(w, true, f) == (w, Failed(ApiFailure))
  {
    ClientIsNear(w.state);
  }
}
