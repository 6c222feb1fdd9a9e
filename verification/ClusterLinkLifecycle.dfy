/** The operations of the cluster link resource as steps on the Kafka REST API and on the
    Terraform state: first what each step does, then the provider that does it. */
module ClusterLinkLifecycle {
  import opened Wrappers
  import opened GoStrings
  import opened ConfigLists
  import opened ClusterLinkSchema
  import opened ClusterLinkRequest

  // ---- The server ----

  const DYNAMIC := "DYNAMIC_CLUSTER_LINK_CONFIG"

  datatype Setting = Setting(value: string, source: string)

  datatype ServerLink = ServerLink(linkId: string, configs: map<string, Setting>)

  datatype LinkKey = LinkKey(clusterId: string, name: string)

  type Links = map<LinkKey, ServerLink>

  /** Entries set through the API become dynamic overrides and touch nothing else. */
  function Overlay(configs: map<string, Setting>, entries: map<string, string>): map<string, Setting> {
    configs + map n | n in entries :: Setting(entries[n], DYNAMIC)
  }

  /** The editable settings that were overridden, which is what the state is meant to hold. */
  function Overrides(configs: map<string, Setting>): map<string, string> {
    OverridesAmong(configs, EDITABLE)
  }

  function OverridesAmong(configs: map<string, Setting>, names: set<string>): map<string, string> {
    map n | n in configs && n in names && configs[n].source == DYNAMIC :: configs[n].value
  }

  function Altered(links: Links, key: LinkKey, entries: map<string, string>): Links
    requires key in links
  {
    links[key := links[key].(configs := Overlay(links[key].configs, entries))]
  }

  /** Which API calls fail during a step, by whatever cause. */
  datatype Faults = Faults(
    create: bool, get: bool, list: bool, alterCredentials: bool, alterConfigs: bool, delete: bool)

  // ---- Steps ----

  datatype StepError =
    | InvalidInput(why: ValidationError)
    | InvalidImportId
    | ImmutableAttribute
    | NoCredentialConfigs
    | SettingRemoved
    | ApiFailure

  datatype Outcome = Done | Failed(error: StepError)

  datatype World = World(links: Links, state: LinkState)

  function KeyFor(l: LinkState): LinkKey {
    LinkKey(ClientFor(l).clusterId, l.name)
  }

  /** What read-back knows about the four clusters: the state's own blocks, or the import environment. */
  datatype Metadata = Metadata(source: Endpoint, destination: Endpoint, local: Endpoint, remote: Endpoint)

  function MetadataOf(l: LinkState): Metadata {
    Metadata(Flatten(l.source), Flatten(l.destination), Flatten(l.local), Flatten(l.remote))
  }

  /** No credentials block is written when both strings are empty. */
  function CredentialBlock(key: string, secret: string): Option<Credentials> {
    if key == "" && secret == "" then None else Some(Credentials(key, secret))
  }

  function Rebuilt(e: Endpoint, withCredentials: bool): Option<Block> {
    Some(Block(e.id, e.restEndpoint, e.bootstrapEndpoint,
               if withCredentials then CredentialBlock(e.key, e.secret) else None))
  }

  /** The far side of an inbound link is read back without credentials. */
  predicate DropsFarCredentials(mode: string, connection: string) {
    (mode == BIDIRECTIONAL || mode == DESTINATION) && connection == INBOUND
  }

  /** The state after read-back has set the link's attributes and blocks. */
  function WithBlocks(l: LinkState, name: string, mode: string, connection: string, linkId: string, m: Metadata)
    : LinkState
  {
    var named := l.(name := name, mode := mode, connection := connection, linkId := linkId);
    var keepFar := !DropsFarCredentials(mode, connection);
    if mode == BIDIRECTIONAL then
      named.(local := Rebuilt(m.local, true), remote := Rebuilt(m.remote, keepFar))
    else
      named.(destination := Rebuilt(m.destination, true), source := Rebuilt(m.source, keepFar))
  }

  function Fetched(w: World, isNew: bool, key: LinkKey, mode: string, connection: string, m: Metadata, f: Faults)
    : (World, Outcome)
  {
    if f.get then (w, Failed(ApiFailure))
    else if key !in w.links then
      if isNew then (w, Failed(ApiFailure)) else (w.(state := w.state.(id := "")), Done)
    else Written(w, key, mode, connection, m, f.list)
  }

  /** The fetched link written into the state; when its settings cannot be listed, all but those and the id. */
  function Written(w: World, key: LinkKey, mode: string, connection: string, m: Metadata, listFails: bool)
    : (World, Outcome)
    requires key in w.links
  {
    var link := w.links[key];
    var blocks := WithBlocks(w.state, key.name, mode, connection, link.linkId, m);
    if listFails then (w.(state := blocks), Failed(ApiFailure))
    else (w.(state := blocks.(configs := Overrides(link.configs), id := CompositeId(key.clusterId, key.name))), Done)
  }

  function ReadStep(w: World, isNew: bool, f: Faults): (World, Outcome) {
    Fetched(w, isNew, KeyFor(w.state), w.state.mode, w.state.connection, MetadataOf(w.state), f)
  }

  /** What a new link is given by the server: its id and the settings it starts from. */
  datatype Birth = Birth(linkId: string, defaults: map<string, Setting>)

  function CreateStep(w: World, planned: LinkState, o: OAuth, birth: Birth, f: Faults): (World, Outcome) {
    var w0 := w.(state := planned);
    var key := KeyFor(planned);
    if Validate(planned, o.enabled).Some? then (w0, Failed(InvalidInput(Validate(planned, o.enabled).value)))
    else if f.create || key in w.links then (w0, Failed(ApiFailure))
    else
      var configs := Overlay(birth.defaults, ConnectionConfig(planned, o) + planned.configs);
      var created := World(w.links[key := ServerLink(birth.linkId, configs)],
                           planned.(id := CompositeId(key.clusterId, key.name)));
      ReadStep(created, true, f)
  }

  predicate OnlyBlocksAndConfigsChange(before: LinkState, planned: LinkState) {
    && planned.name == before.name && planned.mode == before.mode
    && planned.connection == before.connection && planned.linkId == before.linkId
  }

  predicate CredentialsChange(before: LinkState, planned: LinkState) {
    || CredentialsOf(before.source) != CredentialsOf(planned.source)
    || CredentialsOf(before.destination) != CredentialsOf(planned.destination)
    || CredentialsOf(before.local) != CredentialsOf(planned.local)
    || CredentialsOf(before.remote) != CredentialsOf(planned.remote)
  }

  function CredentialEntries(l: LinkState, o: OAuth): map<string, string> {
    Restrict(ConnectionConfig(l, o), CREDENTIAL_NAMES)
  }

  /** The credential part of an update. */
  function SendCredentials(links: Links, before: LinkState, planned: LinkState, o: OAuth, f: Faults)
    : Result<Links, StepError>
  {
    if !CredentialsChange(before, planned) then Ok(links)
    else if CredentialEntries(planned, o) == map[] then Err(NoCredentialConfigs)
    else if f.alterCredentials || KeyFor(planned) !in links then Err(ApiFailure)
    else Ok(Altered(links, KeyFor(planned), CredentialEntries(planned, o)))
  }

  /** The settings part of an update. */
  function SendConfigs(links: Links, before: LinkState, planned: LinkState, f: Faults): Result<Links, StepError> {
    if before.configs == planned.configs then Ok(links)
    else if !(before.configs.Keys <= planned.configs.Keys) then Err(SettingRemoved)
    else if f.alterConfigs || KeyFor(planned) !in links then Err(ApiFailure)
    else Ok(Altered(links, KeyFor(planned), planned.configs))
  }

  /** A failed update leaves the planned values in the state, as Terraform saves them. */
  function UpdateStep(w: World, planned: LinkState, o: OAuth, f: Faults): (World, Outcome) {
    if !OnlyBlocksAndConfigsChange(w.state, planned) then (w.(state := planned), Failed(ImmutableAttribute))
    else
      match SendCredentials(w.links, w.state, planned, o, f)
      case Err(e) => (w.(state := planned), Failed(e))
      case Ok(sent) =>
        match SendConfigs(sent, w.state, planned, f)
        case Err(e) => (World(sent, planned), Failed(e))
        case Ok(links) => ReadStep(World(links, planned), false, f)
  }

  function DeleteStep(w: World, f: Faults): (World, Outcome) {
    if f.delete || KeyFor(w.state) !in w.links then (w, Failed(ApiFailure))
    else (w.(links := w.links - {KeyFor(w.state)}), Done)
  }

  const ABSENT_LINK := LinkState("", "", "", "", None, None, None, None, "", map[])

  /** The clusters of an import: endpoints and keys from the environment, ids from the import id,
      whose last two fields mean source and destination, or local and remote. */
  function ImportMetadata(mode: string, firstId: string, secondId: string, env: Metadata): Metadata {
    if mode == BIDIRECTIONAL then
      Metadata(env.source.(id := ""), env.destination.(id := ""),
               env.local.(id := firstId), env.remote.(id := secondId))
    else
      Metadata(env.source.(id := firstId), env.destination.(id := secondId),
               env.local.(id := ""), env.remote.(id := ""))
  }

  function ImportClient(mode: string, m: Metadata): RestClient {
    if mode == BIDIRECTIONAL then RestClient(m.local.restEndpoint, m.local.id, m.local.key, m.local.secret)
    else if mode == DESTINATION then
      RestClient(m.destination.restEndpoint, m.destination.id, m.destination.key, m.destination.secret)
    else RestClient(m.source.restEndpoint, m.source.id, m.source.key, m.source.secret)
  }

  /** Imports `<name>/<link mode>/<connection mode>/<first id>/<second id>` into an empty state. */
  function ImportStep(links: Links, importId: string, env: Metadata, f: Faults): (World, Outcome) {
    var w := World(links, ABSENT_LINK.(id := importId));
    var parts := Split(importId, '/');
    if |parts| != 5 then (w, Failed(InvalidImportId))
    else
      var m := ImportMetadata(parts[1], parts[3], parts[4], env);
      Fetched(w, true, LinkKey(ImportClient(parts[1], m).clusterId, parts[0]), parts[1], parts[2], m, f)
  }

  // ---- The provider ----

  class Provider {
    var links: Links
    var d: LinkState
    const oauth: OAuth

    constructor (links: Links, d: LinkState, oauth: OAuth)
      ensures this.links == links && this.d == d && this.oauth == oauth
    {
      this.links := links;
      this.d := d;
      this.oauth := oauth;
    }

    ghost function Now(): World
      reads this
    {
      World(links, d)
    }

    // -- API calls --

    method AlterConfigs(key: LinkKey, data: seq<ConfigData>, fault: bool) returns (ok: bool)
      modifies this`links
      ensures ok <==> !fault && key in old(links)
      ensures ok ==> links == Altered(old(links), key, Collected(data))
      ensures !ok ==> links == old(links)
    {
      if fault || key !in links {
        return false;
      }
      var configs := links[key].configs;
      for i := 0 to |data|
        invariant configs == Overlay(links[key].configs, Collected(data[..i]))
      {
        assert data[..i + 1][..i] == data[..i];
        configs := configs[data[i].name := Setting(data[i].value, DYNAMIC)];
      }
      assert data[..|data|] == data;
      links := links[key := links[key].(configs := configs)];
      return true;
    }

    /** The settings of a link come back in no particular order. */
    method ListConfigs(key: LinkKey) returns (data: seq<(string, Setting)>)
      requires key in links
      ensures forall i, j :: 0 <= i < j < |data| ==> data[i].0 != data[j].0
      ensures forall e :: e in data <==> e.0 in links[key].configs && links[key].configs[e.0] == e.1
    {
      var configs := links[key].configs;
      var remaining := configs.Keys;
      data := [];
      while remaining != {}
        invariant remaining <= configs.Keys
        invariant forall i, j :: 0 <= i < j < |data| ==> data[i].0 != data[j].0
        invariant forall e :: e in data <==> e.0 in configs.Keys - remaining && configs[e.0] == e.1
        decreases remaining
      {
        var n :| n in remaining;
        data := data + [(n, configs[n])];
        remaining := remaining - {n};
      }
    }

    // -- Read --

    method LoadConfigs(key: LinkKey, fault: bool) returns (r: Result<map<string, string>, StepError>)
      requires key in links
      ensures r == if fault then Err(ApiFailure) else Ok(Overrides(links[key].configs))
    {
      if fault {
        return Err(ApiFailure);
      }
      var data := ListConfigs(key);
      var config := KeepOverrides(data, links[key].configs, EDITABLE);
      return Ok(config);
    }

    static method KeepOverrides(data: seq<(string, Setting)>, ghost configs: map<string, Setting>, names: set<string>)
      returns (config: map<string, string>)
      requires forall e :: e in data <==> e.0 in configs && configs[e.0] == e.1
      ensures config == OverridesAmong(configs, names)
    {
      config := map[];
      for i := 0 to |data|
        invariant forall n :: n in config ==> n in OverridesAmong(configs, names) && config[n] == configs[n].value
        invariant forall e :: e in data[..i] && e.0 in OverridesAmong(configs, names) ==> e.0 in config
      {
        assert data[i] in data;
        if data[i].0 in names && data[i].1.source == DYNAMIC {
          config := config[data[i].0 := data[i].1.value];
        }
      }
      assert forall n :: n in configs ==> (n, configs[n]) in data[..|data|];
    }

    /** Writes the fetched link into the state, attribute by attribute. */
    method SetAttributes(key: LinkKey, mode: string, connection: string, m: Metadata, listFails: bool)
      returns (r: Outcome)
      requires key in links
      modifies this`d
      ensures (Now(), r) == Written(old(Now()), key, mode, connection, m, listFails)
    {
      d := d.(name := key.name);
      d := d.(mode := mode);
      d := d.(connection := connection);
      d := d.(linkId := links[key].linkId);
      if mode == BIDIRECTIONAL {
        d := d.(local := Some(Block(m.local.id, m.local.restEndpoint, m.local.bootstrapEndpoint,
                                    CredentialBlock(m.local.key, m.local.secret))));
        if connection == INBOUND {
          d := d.(remote := Some(Block(m.remote.id, m.remote.restEndpoint, m.remote.bootstrapEndpoint, None)));
        } else {
          d := d.(remote := Some(Block(m.remote.id, m.remote.restEndpoint, m.remote.bootstrapEndpoint,
                                       CredentialBlock(m.remote.key, m.remote.secret))));
        }
      } else {
        d := d.(destination := Some(Block(m.destination.id, m.destination.restEndpoint, m.destination.bootstrapEndpoint,
                                          CredentialBlock(m.destination.key, m.destination.secret))));
        if mode == DESTINATION && connection == INBOUND {
          d := d.(source := Some(Block(m.source.id, m.source.restEndpoint, m.source.bootstrapEndpoint, None)));
        } else {
          d := d.(source := Some(Block(m.source.id, m.source.restEndpoint, m.source.bootstrapEndpoint,
                                       CredentialBlock(m.source.key, m.source.secret))));
        }
      }
      var configs := LoadConfigs(key, listFails);
      if configs.Err? {
        return Failed(configs.error);
      }
      d := d.(configs := configs.value);
      d := d.(id := CompositeId(key.clusterId, key.name));
      return Done;
    }

    method ReadAndSetAttributes(isNew: bool, key: LinkKey, mode: string, connection: string, m: Metadata, f: Faults)
      returns (r: Outcome)
      modifies this`d
      ensures (Now(), r) == Fetched(old(Now()), isNew, key, mode, connection, m, f)
    {
      if f.get {
        return Failed(ApiFailure);
      }
      if key !in links {
        if !isNew {
          d := d.(id := "");
          return Done;
        }
        return Failed(ApiFailure);
      }
      r := SetAttributes(key, mode, connection, m, f.list);
    }

    method Read(isNew: bool, f: Faults) returns (r: Outcome)
      modifies this`d
      ensures (Now(), r) == ReadStep(old(Now()), isNew, f)
    {
      var client := ClientFor(d);
      var m := Metadata(
        Endpoint(IdOf(d.source), RestOf(d.source), BootstrapOf(d.source), KeyOf(d.source), SecretOf(d.source)),
        Endpoint(IdOf(d.destination), RestOf(d.destination), BootstrapOf(d.destination), KeyOf(d.destination),
                 SecretOf(d.destination)),
        Endpoint(IdOf(d.local), RestOf(d.local), BootstrapOf(d.local), KeyOf(d.local), SecretOf(d.local)),
        Endpoint(IdOf(d.remote), RestOf(d.remote), BootstrapOf(d.remote), KeyOf(d.remote), SecretOf(d.remote)));
      r := ReadAndSetAttributes(isNew, LinkKey(client.clusterId, d.name), d.mode, d.connection, m, f);
    }

    // -- Create, update, delete --

    method Create(planned: LinkState, birth: Birth, f: Faults) returns (r: Outcome)
      modifies this
      ensures (Now(), r) == CreateStep(old(Now()), planned, oauth, birth, f)
    {
      hide ConnectionConfig, Validate, CompositeId, Overlay;
      hide ConfigLists.Collected, ConfigLists.Lists, ConfigLists.Distinct, ConfigLists.Enumerates;
      d := planned;
      var invalid := Validate(d, oauth.enabled);
      if invalid.Some? {
        return Failed(InvalidInput(invalid.value));
      }
      var client := ClientFor(d);
      var request := ConstructRequest(d, oauth);
      var key := LinkKey(client.clusterId, d.name);
      if f.create || key in links {
        return Failed(ApiFailure);
      }
      ListsMeans(request.configs, ConnectionConfig(d, oauth), d.configs);
      links := links[key := ServerLink(birth.linkId, birth.defaults)];
      var ok := AlterConfigs(key, request.configs, false);
      ghost var configs := Overlay(birth.defaults, ConnectionConfig(d, oauth) + d.configs);
      assert links == old(links)[key := ServerLink(birth.linkId, configs)];
      d := d.(id := CompositeId(client.clusterId, d.name));
      r := Read(true, f);
    }

    method Update(planned: LinkState, f: Faults) returns (r: Outcome)
      requires planned.configs.Keys <= EDITABLE
      modifies this
      ensures (Now(), r) == UpdateStep(old(Now()), planned, oauth, f)
    {
      var before := d;
      d := planned;
      if d.name != before.name || d.mode != before.mode
         || d.connection != before.connection || d.linkId != before.linkId {
        return Failed(ImmutableAttribute);
      }
      r := UpdateCredentials(before, f);
      if r.Done? {
        r := UpdateConfigs(before, f);
        if r.Done? {
          r := Read(false, f);
        }
      }
    }

    method UpdateCredentials(before: LinkState, f: Faults) returns (r: Outcome)
      requires d.configs.Keys <= EDITABLE
      modifies this`links
      ensures match SendCredentials(old(links), before, d, oauth, f)
              case Ok(sent) => r == Done && links == sent
              case Err(e) => r == Failed(e) && links == old(links)
    {
      hide ConnectionConfig, CredentialEntries, ConfigLists.Collected, Overlay, CredentialsOf;
      if CredentialsOf(before.source) != CredentialsOf(d.source)
         || CredentialsOf(before.destination) != CredentialsOf(d.destination)
         || CredentialsOf(before.local) != CredentialsOf(d.local)
         || CredentialsOf(before.remote) != CredentialsOf(d.remote) {
        var client := ClientFor(d);
        var entries := CredentialConfigs();
        if |entries| == 0 {
          return Failed(NoCredentialConfigs);
        }
        var ok := AlterConfigs(LinkKey(client.clusterId, d.name), entries, f.alterCredentials);
        if !ok {
          return Failed(ApiFailure);
        }
      }
      return Done;
    }

    /** The credential entries of a full request for the planned state. */
    method CredentialConfigs() returns (entries: seq<ConfigData>)
      requires d.configs.Keys <= EDITABLE
      ensures Collected(entries) == CredentialEntries(d, oauth)
      ensures |entries| == 0 <==> CredentialEntries(d, oauth) == map[]
    {
      hide ConnectionConfig, ConfigLists.Restrict, ConfigLists.Collected, RequestFor;
      var request := ConstructRequest(d, oauth);
      entries := Filter(request.configs, CREDENTIAL_NAMES);
      CredentialsOfRequest(request, d, oauth, entries);
    }

    method UpdateConfigs(before: LinkState, f: Faults) returns (r: Outcome)
      modifies this`links
      ensures match SendConfigs(old(links), before, d, f)
              case Ok(sent) => r == Done && links == sent
              case Err(e) => r == Failed(e) && links == old(links)
    {
      hide Altered, ConfigLists.Collected, ConfigLists.Enumerates, ClientFor;
      if d.configs != before.configs {
        var remaining := before.configs.Keys;
        while remaining != {}
          invariant remaining <= before.configs.Keys
          invariant before.configs.Keys - remaining <= d.configs.Keys
          decreases remaining
        {
          var name :| name in remaining;
          if name !in d.configs {
            return Failed(SettingRemoved);
          }
          remaining := remaining - {name};
        }
        var entries := FromMap(d.configs);
        CollectedOfEnumeration(entries, d.configs);
        var client := ClientFor(d);
        var ok := AlterConfigs(LinkKey(client.clusterId, d.name), entries, f.alterConfigs);
        if !ok {
          return Failed(ApiFailure);
        }
      }
      return Done;
    }

    method Import(importId: string, env: Metadata, f: Faults) returns (r: Outcome)
      modifies this`d
      ensures (Now(), r) == ImportStep(links, importId, env, f)
    {
      d := ABSENT_LINK.(id := importId);
      var parts := Split(importId, '/');
      if |parts| != 5 {
        return Failed(InvalidImportId);
      }
      var linkName, linkMode, connectionMode := parts[0], parts[1], parts[2];
      var sourceId, destinationId, localId, remoteId := parts[3], parts[4], "", "";
      if linkMode == BIDIRECTIONAL {
        sourceId, destinationId := "", "";
        localId, remoteId := parts[3], parts[4];
      }
      var m := Metadata(env.source.(id := sourceId), env.destination.(id := destinationId),
                        env.local.(id := localId), env.remote.(id := remoteId));
      var client;
      if linkMode == BIDIRECTIONAL {
        client := RestClient(m.local.restEndpoint, localId, m.local.key, m.local.secret);
      } else if linkMode == DESTINATION {
        client := RestClient(m.destination.restEndpoint, destinationId, m.destination.key, m.destination.secret);
      } else {
        client := RestClient(m.source.restEndpoint, sourceId, m.source.key, m.source.secret);
      }
      r := ReadAndSetAttributes(true, LinkKey(client.clusterId, linkName), linkMode, connectionMode, m, f);
    }

    method Delete(f: Faults) returns (r: Outcome)
      modifies this`links
      ensures (Now(), r) == DeleteStep(old(Now()), f)
    {
      var client := ClientFor(d);
      var key := LinkKey(client.clusterId, d.name);
      if f.delete || key !in links {
        return Failed(ApiFailure);
      }
      links := links - {key};
      return Done;
    }
  }

  /** A request holds every entry of the connection and of the settings once: no name repeats. */
  lemma RequestEnumerates(r: LinkRequest, l: LinkState, o: OAuth)
    requires RequestFor(r, l, o) && l.configs.Keys <= EDITABLE
    ensures Enumerates(r.configs, ConnectionConfig(l, o) + l.configs)
  {
    ConnectionNamesAreGenerated(l, o);
    GeneratedAreNotEditable();
    ListsMeans(r.configs, ConnectionConfig(l, o), l.configs);
  }

  lemma CredentialsOfRequest(r: LinkRequest, l: LinkState, o: OAuth, entries: seq<ConfigData>)
    requires RequestFor(r, l, o) && l.configs.Keys <= EDITABLE
    requires Distinct(r.configs) ==> Distinct(entries)
    requires forall c :: c in entries <==> c in r.configs && c.name in CREDENTIAL_NAMES
    ensures Collected(entries) == Restrict(ConnectionConfig(l, o), CREDENTIAL_NAMES)
    ensures |entries| == 0 <==> Restrict(ConnectionConfig(l, o), CREDENTIAL_NAMES) == map[]
  {
    hide *;
    RequestEnumerates(r, l, o);
    CredentialsAreNotEditable();
    CredentialsOfEnumeration(r.configs, ConnectionConfig(l, o), l.configs, entries, CREDENTIAL_NAMES);
  }

  lemma CredentialsAreNotEditable()
    ensures CREDENTIAL_NAMES !! EDITABLE
  {
    GeneratedAreNotEditable();
    assert CREDENTIAL_NAMES <= GENERATED;
  }

  lemma CredentialsOfEnumeration(list: seq<ConfigData>, connection: map<string, string>, settings: map<string, string>,
                                 entries: seq<ConfigData>, names: set<string>)
    requires Enumerates(list, connection + settings) && names !! settings.Keys
    requires Distinct(list) ==> Distinct(entries)
    requires forall c :: c in entries <==> c in list && c.name in names
    ensures Collected(entries) == Restrict(connection, names)
    ensures |entries| == 0 <==> Restrict(connection, names) == map[]
  {
    var kept := Restrict(connection, names);
    assert kept == Restrict(connection + settings, names);
    FilterEnumerates(list, connection + settings, entries, names);
    hide Restrict, Enumerates, Collected, Distinct;
    CollectedOfEnumeration(entries, kept);
    EmptyEnumeration(entries, kept);
  }

  lemma EmptyEnumeration(list: seq<ConfigData>, m: map<string, string>)
    requires Enumerates(list, m)
    ensures |list| == 0 <==> m == map[]
  {
    if |list| > 0 {
      assert list[0] in list;
    }
  }
}
