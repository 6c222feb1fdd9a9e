/** Importing a cluster link. */
module ClusterLinkImport {
  import opened Wrappers
  import opened GoStrings
  import opened ClusterLinkSchema
  import opened ClusterLinkLifecycle
  import opened ClusterLinkProperties
  import opened ClusterLinkRuns

  function ImportId(name: string, mode: string, connection: string, firstId: string, secondId: string): string {
    name + "/" + mode + "/" + connection + "/" + firstId + "/" + secondId
  }

  lemma ImportIdSplits(name: string, mode: string, connection: string, firstId: string, secondId: string)
    ensures Split(ImportId(name, mode, connection, firstId, secondId), '/')
            == [name, mode, connection, firstId, secondId]
            <==> '/' !in name && '/' !in mode && '/' !in connection && '/' !in firstId && '/' !in secondId
  {
    var fields := [name, mode, connection, firstId, secondId];
    assert Join(fields[4..], '/') == secondId;
    assert fields[3..][1..] == fields[4..] && fields[2..][1..] == fields[3..] && fields[1..][1..] == fields[2..];
    assert Join(fields[3..], '/') == firstId + "/" + secondId;
    assert Join(fields[2..], '/') == connection + "/" + firstId + "/" + secondId;
    assert Join(fields[1..], '/') == mode + "/" + connection + "/" + firstId + "/" + secondId;
    assert Join(fields, '/') == ImportId(name, mode, connection, firstId, secondId);
    SplitOfJoin(fields, '/');
    assert name in fields && mode in fields && connection in fields && firstId in fields && secondId in fields by {
      assert fields[0] == name && fields[1] == mode && fields[2] == connection;
      assert fields[3] == firstId && fields[4] == secondId;
    }
  }

  /** The composite id in the state gives back cluster and name exactly when neither holds a slash;
      having two fields, it is no import id. */
  lemma CompositeIdSplits(clusterId: string, name: string, links: Links, env: Metadata, f: Faults)
    ensures Split(CompositeId(clusterId, name), '/') == [clusterId, name] <==> '/' !in clusterId && '/' !in name
    ensures '/' !in clusterId && '/' !in name ==>
              ImportStep(links, CompositeId(clusterId, name), env, f).1 == Failed(InvalidImportId)
  {
    SplitOfPair(clusterId, name, '/');
  }

  /** Blocks rebuilt from the import metadata read back as that metadata, so the client of the
      import is the client of every later operation. */
  lemma ImportedBlocks(importId: string, name: string, mode: string, connection: string, linkId: string,
                       configs: map<string, string>, id: string, firstId: string, secondId: string, env: Metadata)
    ensures var m := ImportMetadata(mode, firstId, secondId, env);
            var l := WithBlocks(ABSENT_LINK.(id := importId), name, mode, connection, linkId, m)
                     .(configs := configs, id := id);
            && ClientFor(l) == ImportClient(mode, m)
            && WithBlocks(l, name, mode, connection, linkId, MetadataOf(l)) == l
  {
  }

  /** An import succeeds exactly when its id has five fields and the link is found and read. */
  lemma ImportSucceeds(links: Links, importId: string, env: Metadata, f: Faults)
    ensures ImportStep(links, importId, env, f).1 == Done <==>
            && Count(importId, '/') == 4 && !f.get && !f.list
            && var parts := Split(importId, '/');
               |parts| == 5
               && LinkKey(if parts[1] == DESTINATION then parts[4] else parts[3], parts[0]) in links
  {
    SplitCounts(importId, '/');
  }

  /** The environment's strings for the block that is near in this mode, and for the one that is far. */
  function NearEnv(mode: string, env: Metadata): Endpoint {
    if mode == BIDIRECTIONAL then env.local else if mode == DESTINATION then env.destination else env.source
  }

  function FarEnv(mode: string, env: Metadata): Endpoint {
    if mode == BIDIRECTIONAL then env.remote else if mode == DESTINATION then env.source else env.destination
  }

  function WithoutKeyIf(dropped: bool, e: Endpoint): Endpoint {
    if dropped then e.(key := "", secret := "") else e
  }

  /** Both sides have the ids of the import id and the strings the environment has for their roles. */
  lemma SidesOfImport(importId: string, name: string, mode: string, connection: string, linkId: string,
                      configs: map<string, string>, id: string, firstId: string, secondId: string, env: Metadata)
    ensures var m := ImportMetadata(mode, firstId, secondId, env);
            var l := WithBlocks(ABSENT_LINK.(id := importId), name, mode, connection, linkId, m)
                     .(configs := configs, id := id);
            && Flatten(Near(l)) == NearEnv(mode, env).(id := if mode == DESTINATION then secondId else firstId)
            && Flatten(Far(l))
               == WithoutKeyIf((mode == BIDIRECTIONAL || mode == DESTINATION) && connection == INBOUND,
                               FarEnv(mode, env).(id := if mode == DESTINATION then firstId else secondId))
  {
  }

  /** A read right after an import finds the same link with the same client and changes nothing; the
      state has the composite id of the near cluster named in the import id; and each side has its id
      from the import id and its strings from the environment of its role, but for the credentials of
      the far side of an inbound link. */
  lemma ImportThenRead(links: Links, name: string, mode: string, connection: string, firstId: string, secondId: string,
                       env: Metadata, f: Faults)
    requires '/' !in name && '/' !in mode && '/' !in connection && '/' !in firstId && '/' !in secondId
    requires ImportStep(links, ImportId(name, mode, connection, firstId, secondId), env, f).1 == Done
    ensures var w := ImportStep(links, ImportId(name, mode, connection, firstId, secondId), env, f).0;
            var near := if mode == DESTINATION then secondId else firstId;
            var far := if mode == DESTINATION then firstId else secondId;
            var key := LinkKey(near, name);
            && ReadStep(w, false, f) == (w, Done)
            && ClientFor(w.state) == ImportClient(mode, ImportMetadata(mode, firstId, secondId, env))
            && KeyFor(w.state) == key && key in links && w.links == links
            && w.state.id == CompositeId(near, name)
            && w.state.configs == OverridesAt(links, key)
            && w.state.mode == mode && w.state.connection == connection
            && w.state.name == name && w.state.linkId == links[key].linkId
            && Flatten(Near(w.state)) == NearEnv(mode, env).(id := near)
            && Flatten(Far(w.state))
               == WithoutKeyIf((mode == BIDIRECTIONAL || mode == DESTINATION) && connection == INBOUND,
                               FarEnv(mode, env).(id := far))
  {
    hide CompositeId, OverridesAt, WithBlocks, ImportMetadata, ImportClient, ClientFor, Overrides, MetadataOf;
    hide NearEnv, FarEnv, WithoutKeyIf, Near, Far, Flatten;
    var importId := ImportId(name, mode, connection, firstId, secondId);
    ImportIdSplits(name, mode, connection, firstId, secondId);
    var m := ImportMetadata(mode, firstId, secondId, env);
    NearOfImport(mode, firstId, secondId, env);
    var key := LinkKey(ImportClient(mode, m).clusterId, name);
    var link := links[key];
    ImportedBlocks(importId, name, mode, connection, link.linkId, Overrides(link.configs),
                   CompositeId(key.clusterId, name), firstId, secondId, env);
    BlocksOnly(ABSENT_LINK.(id := importId), name, mode, connection, link.linkId, m);
    SidesOfImport(importId, name, mode, connection, link.linkId, Overrides(link.configs),
                  CompositeId(key.clusterId, name), firstId, secondId, env);
    OverridesThere(links, key);
  }

  lemma NearOfImport(mode: string, firstId: string, secondId: string, env: Metadata)
    ensures ImportClient(mode, ImportMetadata(mode, firstId, secondId, env)).clusterId
            == if mode == DESTINATION then secondId else firstId
  {
  }

  lemma OverridesThere(links: Links, key: LinkKey)
    requires key in links
    ensures OverridesAt(links, key) == Overrides(links[key].configs)
  {
  }
}
