/** What an update that failed leaves behind, and what applying a configuration again does then.
    Terraform saves the plan of a failed update, so the next one finds nothing to change. */
module ClusterLinkReapply {
  import opened Wrappers
  import opened ConfigLists
  import opened ClusterLinkSchema
  import opened ClusterLinkRequest
  import opened ClusterLinkLifecycle
  import opened ClusterLinkProperties
  import opened ClusterLinkRuns

  // ---- Failed updates ----

  /** Sending either part of the update fails, so that it does not get to its read. */
  predicate FailsToSend(w: World, planned: LinkState, o: OAuth, f: Faults) {
    var sent := SendCredentials(w.links, w.state, planned, o, f);
    sent.Err? || SendConfigs(sent.value, w.state, planned, f).Err?
  }

  /** An update is refused for want of credentials to send exactly when it changes some on a link the
      near side does not open; nothing is sent then, and the plan is saved. */
  lemma InboundCredentialsAreRefused(w: World, planned: LinkState, o: OAuth, f: Faults)
    requires OnlyBlocksAndConfigsChange(w.state, planned)
    ensures var (w', out) := UpdateStep(w, planned, o, f);
            && (out == Failed(NoCredentialConfigs) <==>
                  CredentialsChange(w.state, planned) && !OpensConnection(planned))
            && (out == Failed(NoCredentialConfigs) ==> w' == w.(state := planned))
  {
    hide CredentialsChange, CredentialEntries, KeyFor, OpensConnection, Altered, ReadStep;
    CredentialsAreSentOutbound(planned, o);
    ReadIsNeverRefused(planned);
  }

  lemma ReadIsNeverRefused(planned: LinkState)
    ensures forall links, f: Faults :: ReadStep(World(links, planned), false, f).1 in {Done, Failed(ApiFailure)}
  {
  }

  /** An update that fails before its read is forgotten: the state has its plan, applying it again
      sends nothing and succeeds, and the settings read back are those from before. */
  lemma FailedUpdateIsForgotten(w: World, planned: LinkState, o: OAuth, f: Faults, g: Faults, key: LinkKey,
                                others: Links)
    requires Owns(w, key, others) && InPlace(w.state, planned)
    requires FailsToSend(w, planned, o, f) && !g.get && !g.list
    ensures var (failed, out) := UpdateStep(w, planned, o, f);
            var (again, out') := UpdateStep(failed, planned, o, g);
            && out.Failed? && failed.state == planned && out' == Done && again.links == failed.links
            && again.state == ReadBack(planned).(
                 linkId := failed.links[key].linkId, configs := OverridesAt(w.links, key),
                 id := CompositeId(key.clusterId, key.name))
  {
    hide ReadStep, OverridesAt, Agrees, CredentialEntries, Altered, InPlace, CompositeId, KeyFor;
    InPlaceKeepsKey(w.state, planned);
    UpdateOwns(w, planned, o, f, key, others);
    var failed := UpdateStep(w, planned, o, f).0;
    assert OverridesAt(w.links, key) + map[] == OverridesAt(w.links, key);
    ReadOwns(failed, key, others, false, g);
  }

  lemma RefusedBeforeRead(w: World, planned: LinkState, o: OAuth, f: Faults)
    requires OnlyBlocksAndConfigsChange(w.state, planned)
    requires UpdateStep(w, planned, o, f).1 in {Failed(NoCredentialConfigs), Failed(SettingRemoved)}
    ensures FailsToSend(w, planned, o, f)
  {
    hide CredentialsChange, CredentialEntries, KeyFor, Altered, ReadStep;
    ReadIsNeverRefused(planned);
  }

  /** So is a refused removal of settings: from an agreeing state they all come back. */
  lemma RefusedRemovalIsForgotten(w: World, planned: LinkState, o: OAuth, f: Faults, g: Faults, key: LinkKey,
                                  others: Links)
    requires Owns(w, key, others) && Agrees(w, key) && InPlace(w.state, planned)
    requires UpdateStep(w, planned, o, f).1 == Failed(SettingRemoved) && !g.get && !g.list
    ensures var failed := UpdateStep(w, planned, o, f).0;
            var (again, out) := UpdateStep(failed, planned, o, g);
            failed.state == planned && out == Done && again.links == failed.links
            && again.state.configs == w.state.configs
  {
    hide UpdateStep, OverridesAt, SameEndpoints;
    RefusedBeforeRead(w, planned, o, f);
    FailedUpdateIsForgotten(w, planned, o, f, g, key, others);
  }

  /** So are new credentials on a link the near side does not open: the update that brings them fails
      once, the next one succeeds without sending anything, and from then on the provider itself logs
      in with the new near credentials. */
  lemma InboundCredentialsStick(w: World, planned: LinkState, o: OAuth, f: Faults, g: Faults, key: LinkKey,
                                others: Links)
    requires Owns(w, key, others) && InPlace(w.state, planned)
    requires CredentialsChange(w.state, planned) && !OpensConnection(planned) && !g.get && !g.list
    ensures var (failed, out) := UpdateStep(w, planned, o, f);
            var (again, out') := UpdateStep(failed, planned, o, g);
            && failed == w.(state := planned) && out == Failed(NoCredentialConfigs)
            && out' == Done && again.links == w.links
            && Flatten(Near(again.state)) == Flatten(Near(planned)) && ClientFor(again.state) == ClientFor(planned)
  {
    hide UpdateStep, OverridesAt, SameEndpoints, CredentialsChange, CompositeId;
    InboundCredentialsAreRefused(w, planned, o, f);
    RefusedBeforeRead(w, planned, o, f);
    FailedUpdateIsForgotten(w, planned, o, f, g, key, others);
    NearIsReadBack(planned, w.links[key].linkId, OverridesAt(w.links, key), CompositeId(key.clusterId, key.name));
  }

  lemma NearIsReadBack(l: LinkState, linkId: string, configs: map<string, string>, id: string)
    ensures var k := ReadBack(l).(linkId := linkId, configs := configs, id := id);
            Flatten(Near(k)) == Flatten(Near(l)) && ClientFor(k) == ClientFor(l)
  {
    RebuiltTwice(Flatten(Near(l)), true);
    WrittenTwice(l, linkId, configs, id);
  }

  // ---- Applying a configuration again ----

  /** The plan for a configuration: computed attributes come from the state, and so do settings that
      are not configured. */
  function PlannedAgain(configuration: LinkState, state: LinkState): LinkState {
    configuration.(id := state.id, linkId := state.linkId,
                   configs := if configuration.configs == map[] then state.configs else configuration.configs)
  }

  /** Read-back loses something of the accepted link. */
  predicate Dropped(l: LinkState) {
    l.mode == BIDIRECTIONAL && l.connection == INBOUND && CredentialsOf(l.remote).Some?
  }

  /** Refreshing the state, or applying the configuration with some settings. */
  datatype Visit =
    | Refreshed(f: Faults)
    | Reapplied(settings: map<string, string>, f: Faults)

  function PlanFor(l: LinkState, settings: map<string, string>, state: LinkState): LinkState {
    PlannedAgain(l.(configs := settings), state)
  }

  /** Terraform leaves a resource alone when its plan is empty. */
  function VisitStep(w: World, l: LinkState, v: Visit, o: OAuth): (World, Outcome) {
    match v
    case Refreshed(f) => ReadStep(w, false, f)
    case Reapplied(settings, f) =>
      var planned := PlanFor(l, settings, w.state);
      if planned == w.state then (w, Done) else UpdateStep(w, planned, o, f)
  }

  /** The blocks were read back since they were last applied: by a refresh, or by the read an update
      ends with. */
  predicate ReadSince(w: World, l: LinkState, v: Visit, o: OAuth, before: bool) {
    match v
    case Refreshed(f) => before || !f.get
    case Reapplied(settings, f) =>
      var planned := PlanFor(l, settings, w.state);
      planned != w.state && !FailsToSend(w, planned, o, f) && !f.get
  }

  /** The world after some visits, and whether the blocks were read back since they were last applied. */
  function Visited(w: World, l: LinkState, visits: seq<Visit>, o: OAuth, read: bool): (World, bool)
    decreases |visits|
  {
    if visits == [] then (w, read)
    else
      Visited(VisitStep(w, l, visits[0], o).0, l, visits[1..], o, ReadSince(w, l, visits[0], o, read))
  }

  /** What the state shows of a link: its blocks as applied, or as read back. */
  function Shown(l: LinkState, read: bool, state: LinkState): LinkState {
    (if read then ReadBack(l) else l).(id := state.id, linkId := state.linkId, configs := state.configs)
  }

  predicate Shows(w: World, l: LinkState, read: bool, key: LinkKey, others: Links) {
    Owns(w, key, others) && w.state == Shown(l, read, w.state) && w.state.configs.Keys <= EDITABLE
  }

  predicate EditableOnly(visits: seq<Visit>) {
    forall v :: v in visits && v.Reapplied? ==> v.settings.Keys <= EDITABLE
  }

  lemma ReadShows(w: World, l: LinkState, read: bool, f: Faults, key: LinkKey, others: Links)
    requires Shows(w, l, read, key, others)
    ensures Shows(ReadStep(w, false, f).0, l, read || !f.get, key, others)
  {
    hide ClientFor, CompositeId, WithBlocks, MetadataOf, ReadBack;
    ReadOwns(w, key, others, false, f);
    ShownIsReadBack(l, read, w.state, w.links[key].linkId);
  }

  /** Reading back what is shown shows what is read back. */
  lemma ShownIsReadBack(l: LinkState, read: bool, s: LinkState, linkId: string)
    requires s == Shown(l, read, s)
    ensures WithBlocks(s, s.name, s.mode, s.connection, linkId, MetadataOf(s))
            == Shown(l, true, s.(linkId := linkId))
  {
    var keepFar := !DropsFarCredentials(l.mode, l.connection);
    RebuiltTwice(Flatten(l.local), true);
    RebuiltTwice(Flatten(l.remote), keepFar);
    RebuiltTwice(Flatten(l.destination), true);
    RebuiltTwice(Flatten(l.source), keepFar);
    hide Flatten, Rebuilt;
  }

  lemma PlanIsInPlace(l: LinkState, read: bool, settings: map<string, string>, s: LinkState)
    requires s == Shown(l, read, s) && s.configs.Keys <= EDITABLE && settings.Keys <= EDITABLE
    ensures InPlace(s, PlanFor(l, settings, s))
  {
  }

  lemma VisitShows(w: World, l: LinkState, read: bool, v: Visit, o: OAuth, key: LinkKey, others: Links)
    requires Shows(w, l, read, key, others) && EditableOnly([v])
    ensures Shows(VisitStep(w, l, v, o).0, l, ReadSince(w, l, v, o, read), key, others)
  {
    match v
    case Refreshed(f) => ReadShows(w, l, read, f, key, others);
    case Reapplied(settings, f) =>
      assert v in [v];
      var planned := PlanFor(l, settings, w.state);
      PlanIsInPlace(l, read, settings, w.state);
      assert planned == Shown(l, false, planned);
      hide ReadStep, Shown, InPlace, PlanFor;
      UpdateShows(w, l, planned, o, f, key, others);
  }

  lemma UpdateShows(w: World, l: LinkState, planned: LinkState, o: OAuth, f: Faults, key: LinkKey, others: Links)
    requires Owns(w, key, others) && InPlace(w.state, planned) && planned == Shown(l, false, planned)
    ensures Shows(UpdateStep(w, planned, o, f).0, l, !FailsToSend(w, planned, o, f) && !f.get, key, others)
  {
    hide ReadStep, Shown, CredentialEntries, Altered, KeyFor, SameEndpoints, CredentialsChange;
    InPlaceKeepsKey(w.state, planned);
    UpdateOwns(w, planned, o, f, key, others);
    var sent := SendCredentials(w.links, w.state, planned, o, f);
    if !FailsToSend(w, planned, o, f) {
      CredentialsKeepOverrides(w.links, w.state, planned, o, f);
      var links := SendConfigs(sent.value, w.state, planned, f).value;
      ConfigsOverlayOverrides(sent.value, w.state, planned, f);
      ReadShows(World(links, planned), l, false, f, key, others);
    }
  }

  /** After any visits the state shows the link as applied or as read back. */
  lemma {:induction false} VisitsShow(w: World, l: LinkState, read: bool, visits: seq<Visit>, o: OAuth, key: LinkKey,
                                      others: Links)
    requires Shows(w, l, read, key, others) && EditableOnly(visits)
    ensures var (w', read') := Visited(w, l, visits, o, read);
            Shows(w', l, read', key, others)
    decreases |visits|
  {
    hide VisitStep, ReadSince, Shows;
    if visits != [] {
      var v := visits[0];
      assert v in visits;
      VisitShows(w, l, read, v, o, key, others);
      VisitsShow(VisitStep(w, l, v, o).0, l, ReadSince(w, l, v, o, read), visits[1..], o, key, others);
    }
  }

  /** What the next plan finds to do to an accepted link: something of the credentials exactly when the
      link is one that read-back drops them from, and has; otherwise only the settings. */
  lemma PlanFinds(l: LinkState, oauthEnabled: bool, read: bool, settings: map<string, string>, s: LinkState)
    requires SchemaAllows(l) && Validate(l, oauthEnabled).None? && s == Shown(l, read, s)
    ensures var planned := PlanFor(l, settings, s);
            && (CredentialsChange(s, planned) <==> read && Dropped(l))
            && (planned == s <==> !(read && Dropped(l)) && (settings == map[] || settings == s.configs))
            && OnlyBlocksAndConfigsChange(s, planned)
            && (Dropped(l) ==> !OpensConnection(planned))
  {
    ReadKeepsAcceptedBlocks(l, oauthEnabled);
    hide Validate;
  }

  /** The next apply is refused exactly when read-back drops credentials of the link and did so since
      the last apply; refused, it sends nothing and saves its plan; otherwise it sends no credentials,
      and there is nothing to do unless settings change. */
  predicate AppliesNext(now: World, l: LinkState, read: bool, settings: map<string, string>, o: OAuth, f: Faults) {
    var planned := PlanFor(l, settings, now.state);
    var (next, out) := VisitStep(now, l, Reapplied(settings, f), o);
    && (out == Failed(NoCredentialConfigs) <==> Dropped(l) && read)
    && (Dropped(l) && read ==> next == now.(state := planned))
    && (!(Dropped(l) && read) ==>
          && SendCredentials(now.links, now.state, planned, o, f) == Ok(now.links)
          && (planned == now.state <==> settings == map[] || settings == now.state.configs))
  }

  lemma ShownAppliesNext(now: World, l: LinkState, read: bool, settings: map<string, string>, o: OAuth, f: Faults)
    requires SchemaAllows(l) && Validate(l, o.enabled).None? && now.state == Shown(l, read, now.state)
    ensures AppliesNext(now, l, read, settings, o, f)
  {
    hide SchemaAllows, Validate, PlanFor, OpensConnection, CredentialsChange, OnlyBlocksAndConfigsChange, Shown;
    hide UpdateStep, Dropped;
    PlanFinds(l, o.enabled, read, settings, now.state);
    InboundCredentialsAreRefused(now, PlanFor(l, settings, now.state), o, f);
  }

  /** From creation of an accepted link through any refreshes and applies of its configuration, with
      whatever settings and failures, this is what the next apply does. */
  lemma ReapplyLife(w: World, planned: LinkState, o: OAuth, birth: Birth, f: Faults, visits: seq<Visit>,
                    settings: map<string, string>, g: Faults)
    requires SchemaAllows(planned) && CreateStep(w, planned, o, birth, f).1 == Done && EditableOnly(visits)
    ensures var (now, read) := Visited(CreateStep(w, planned, o, birth, f).0, planned, visits, o, true);
            AppliesNext(now, planned, read, settings, o, g)
  {
    var created := CreateStep(w, planned, o, birth, f).0;
    CreateOwns(w, planned, o, birth, f);
    assert Shows(created, planned, true, KeyFor(planned), w.links);
    assert Validate(planned, o.enabled).None?;
    hide CreateStep, AppliesNext, Visited, Validate;
    VisitsShow(created, planned, true, visits, o, KeyFor(planned), w.links);
    var (now, read) := Visited(created, planned, visits, o, true);
    ShownAppliesNext(now, planned, read, settings, o, g);
  }

  /** Right after creation the plan is empty exactly when read-back dropped nothing and the link was
      born without overrides that the configured settings leave out. */
  lemma SecondApply(w: World, planned: LinkState, o: OAuth, birth: Birth, f: Faults)
    requires SchemaAllows(planned) && CreateStep(w, planned, o, birth, f).1 == Done
    ensures var created := CreateStep(w, planned, o, birth, f).0;
            created.state == PlannedAgain(planned, created.state) <==>
            !Dropped(planned) && (planned.configs == map[] || Overrides(birth.defaults).Keys <= planned.configs.Keys)
  {
    CreateOwns(w, planned, o, birth, f);
    var created := CreateStep(w, planned, o, birth, f).0;
    hide CreateStep;
    PlanFinds(planned, o.enabled, true, planned.configs, created.state);
    assert planned.(configs := planned.configs) == planned;
    UnionIsSecond(Overrides(birth.defaults), planned.configs);
  }

  lemma UnionIsSecond(m: map<string, string>, n: map<string, string>)
    ensures m + n == n <==> m.Keys <= n.Keys
  {
  }

  // ---- The two quirks are real ----

  /** An accepted link whose remote credentials read-back drops, and one that logs in without a key. */
  lemma QuirksExist(o: OAuth, birth: Birth, f: Faults)
    requires !f.create && !f.get && !f.list
    ensures exists l :: SchemaAllows(l) && Dropped(l) && CreateStep(World(map[], l), l, o, birth, f).1 == Done
    ensures exists l :: SchemaAllows(l) && OpensConnection(l) && KeyOf(Far(l)) == ""
                        && CreateStep(World(map[], l), l, o, birth, f).1 == Done
  {
    hide ConnectionConfig;
    var near := Some(Block("lkc-1", "https://near", "", Some(Credentials("key", "secret"))));
    var far := Block("lkc-2", "", "far:9092", None);
    var withKey := Some(far.(credentials := Some(Credentials("key", "secret"))));
    var dropped := LinkState("", "link", BIDIRECTIONAL, INBOUND, None, None, near, withKey, "", map[]);
    var keyless := LinkState("", "link", BIDIRECTIONAL, OUTBOUND, None, None, near, Some(far), "", map[]);
    assert SchemaAllows(dropped) && Dropped(dropped);
    assert CreateStep(World(map[], dropped), dropped, o, birth, f).1 == Done;
    assert SchemaAllows(keyless) && CreateStep(World(map[], keyless), keyless, o, birth, f).1 == Done;
  }
}
