/** The importers that walk an organization and name every instance they meet. */
module Importers {
  import opened Wrappers
  import opened GoStrings
  import opened Listing

  datatype KafkaCluster = KafkaCluster(id: string, displayName: string)

  datatype Org = Org(environments: Server<Environment>, clusters: string -> Server<KafkaCluster>,
                     connectors: (string, string) -> Result<seq<string>, ListError>)

  /** A connector met on the walk. */
  datatype Triple = Triple(environmentId: string, clusterId: string, name: string)

  function InstanceId(t: Triple): string {
    t.environmentId + "/" + t.clusterId + "/" + t.name
  }

  /** What has been met so far, and whether the walk was cut short. */
  datatype Walk = Walk(met: seq<Triple>, failed: bool)

  function Then(w: Walk, next: Walk): Walk {
    if w.failed then w else Walk(w.met + next.met, next.failed)
  }

  function Connectors(org: Org, environmentId: string, clusterId: string): Walk {
    match org.connectors(environmentId, clusterId)
    case Err(_) => Walk([], true)
    case Ok(names) =>
      Walk(seq(|names|, i requires 0 <= i < |names| => Triple(environmentId, clusterId, names[i])), false)
  }

  function ConnectorsOfClusters(org: Org, environmentId: string, clusters: seq<KafkaCluster>): Walk {
    if clusters == [] then Walk([], false)
    else
      var last := |clusters| - 1;
      Then(ConnectorsOfClusters(org, environmentId, clusters[..last]),
           Connectors(org, environmentId, clusters[last].id))
  }

  ghost function ConnectorsOfEnvironment(org: Org, environmentId: string): Walk
    requires Listable(org.environments, org.clusters)
  {
    match Everything(org.clusters(environmentId))
    case Err(_) => Walk([], true)
    case Ok(clusters) => ConnectorsOfClusters(org, environmentId, clusters)
  }

  ghost function ConnectorsOfEnvironments(org: Org, environments: seq<Environment>): Walk
    requires Listable(org.environments, org.clusters)
  {
    if environments == [] then Walk([], false)
    else
      var last := |environments| - 1;
      Then(ConnectorsOfEnvironments(org, environments[..last]), ConnectorsOfEnvironment(org, environments[last].id))
  }

  ghost function AllConnectors(org: Org): Walk
    requires Listable(org.environments, org.clusters)
  {
    match Everything(org.environments)
    case Err(_) => Walk([], true)
    case Ok(environments) => ConnectorsOfEnvironments(org, environments)
  }

  /** The map of instances after recording some connectors, later ones over earlier ones of the same id. */
  function Recorded(met: seq<Triple>, resourceName: string -> string): map<string, string> {
    if met == [] then map[]
    else
      var last := met[|met| - 1];
      Recorded(met[..|met| - 1], resourceName)[InstanceId(last) := resourceName(last.name)]
  }

  lemma RecordedOneMore(met: seq<Triple>, t: Triple, resourceName: string -> string)
    ensures Recorded(met + [t], resourceName) == Recorded(met, resourceName)[InstanceId(t) := resourceName(t.name)]
  {
    assert (met + [t])[..|met|] == met;
  }

  // ---- The walk ----

  method RecordCluster(org: Org, environmentId: string, clusterId: string, resourceName: string -> string,
                       instances: map<string, string>, ghost met: seq<Triple>)
    returns (recorded: map<string, string>, failed: bool)
    requires instances == Recorded(met, resourceName)
    ensures var w := Connectors(org, environmentId, clusterId);
            failed == w.failed && recorded == Recorded(met + w.met, resourceName)
  {
    hide Recorded;
    recorded := instances;
    var names := org.connectors(environmentId, clusterId);
    ghost var all := Connectors(org, environmentId, clusterId).met;
    if names.Err? {
      assert met + all == met;
      return recorded, true;
    }
    assert met + all[..0] == met;
    for i := 0 to |names.value|
      invariant recorded == Recorded(met + all[..i], resourceName)
    {
      var instanceId := environmentId + "/" + clusterId + "/" + names.value[i];
      assert instanceId == InstanceId(all[i]);
      assert met + all[..i + 1] == (met + all[..i]) + [all[i]];
      RecordedOneMore(met + all[..i], all[i], resourceName);
      recorded := recorded[instanceId := resourceName(names.value[i])];
    }
    assert all[..|names.value|] == all;
    return recorded, false;
  }

  lemma {:induction false} ClusterFailureEnds(org: Org, environmentId: string, clusters: seq<KafkaCluster>, i: nat)
    requires i <= |clusters| && ConnectorsOfClusters(org, environmentId, clusters[..i]).failed
    ensures ConnectorsOfClusters(org, environmentId, clusters)
            == ConnectorsOfClusters(org, environmentId, clusters[..i])
    decreases |clusters|
  {
    if i < |clusters| {
      var front := clusters[..|clusters| - 1];
      assert clusters[..i] == front[..i];
      ClusterFailureEnds(org, environmentId, front, i);
    } else {
      assert clusters[..i] == clusters;
    }
  }

  method RecordEnvironment(org: Org, environmentId: string, resourceName: string -> string,
                           instances: map<string, string>, ghost met: seq<Triple>)
    returns (recorded: map<string, string>, failed: bool)
    requires Listable(org.environments, org.clusters) && instances == Recorded(met, resourceName)
    ensures var w := ConnectorsOfEnvironment(org, environmentId);
            failed == w.failed && recorded == Recorded(met + w.met, resourceName)
  {
    hide Recorded, Connectors, Listing.Everything, Listing.Terminates;
    recorded := instances;
    assert met + [] == met;
    var listed := LoadAll(org.clusters(environmentId));
    if listed.Err? {
      return recorded, true;
    }
    var clusters := listed.value;
    for i := 0 to |clusters|
      invariant !ConnectorsOfClusters(org, environmentId, clusters[..i]).failed
      invariant recorded == Recorded(met + ConnectorsOfClusters(org, environmentId, clusters[..i]).met, resourceName)
    {
      ghost var before := ConnectorsOfClusters(org, environmentId, clusters[..i]).met;
      recorded, failed := RecordCluster(org, environmentId, clusters[i].id, resourceName, recorded, met + before);
      assert clusters[..i + 1][..i] == clusters[..i];
      ghost var here := Connectors(org, environmentId, clusters[i].id).met;
      assert met + before + here == met + (before + here);
      if failed {
        ClusterFailureEnds(org, environmentId, clusters, i + 1);
        return;
      }
    }
    assert clusters[..|clusters|] == clusters;
    return recorded, false;
  }

  lemma {:induction false} EnvironmentFailureEnds(org: Org, environments: seq<Environment>, i: nat)
    requires Listable(org.environments, org.clusters)
    requires i <= |environments| && ConnectorsOfEnvironments(org, environments[..i]).failed
    ensures ConnectorsOfEnvironments(org, environments) == ConnectorsOfEnvironments(org, environments[..i])
    decreases |environments|
  {
    if i < |environments| {
      var front := environments[..|environments| - 1];
      assert environments[..i] == front[..i];
      EnvironmentFailureEnds(org, front, i);
    } else {
      assert environments[..i] == environments;
    }
  }

  /** Names every connector of the organization; on a failure, those met before it. */
  method LoadAllConnectors(org: Org, resourceName: string -> string)
    returns (instances: map<string, string>, failed: bool)
    requires Listable(org.environments, org.clusters)
    ensures var w := AllConnectors(org);
            failed == w.failed && instances == Recorded(w.met, resourceName)
  {
    hide ConnectorsOfEnvironment, Listing.Everything, Listing.Terminates;
    instances := map[];
    var listed := LoadAll(org.environments);
    if listed.Err? {
      return instances, true;
    }
    var environments := listed.value;
    for i := 0 to |environments|
      invariant !ConnectorsOfEnvironments(org, environments[..i]).failed
      invariant instances == Recorded(ConnectorsOfEnvironments(org, environments[..i]).met, resourceName)
    {
      instances, failed := RecordEnvironment(org, environments[i].id, resourceName, instances,
                                             ConnectorsOfEnvironments(org, environments[..i]).met);
      assert environments[..i + 1][..i] == environments[..i];
      if failed {
        EnvironmentFailureEnds(org, environments, i + 1);
        return;
      }
    }
    assert environments[..|environments|] == environments;
    return instances, false;
  }

  // ---- Instance ids ----

  lemma {:induction false} FirstFieldIsFixed(a: string, s: string, b: string, t: string)
    requires '/' !in a && '/' !in b && a + "/" + s == b + "/" + t
    ensures a == b && s == t
  {
    var u := a + "/" + s;
    assert u[|a|] == '/' && u[|b|] == '/';
    assert a == u[..|a|] && b == u[..|b|];
    assert s == u[|a| + 1..] && t == u[|b| + 1..];
  }

  /** The id splits into environment, cluster and name, in this order, exactly when none has a slash. */
  lemma InstanceIdSplits(t: Triple)
    ensures Split(InstanceId(t), '/') == [t.environmentId, t.clusterId, t.name] <==>
            '/' !in t.environmentId && '/' !in t.clusterId && '/' !in t.name
  {
    var fields := [t.environmentId, t.clusterId, t.name];
    assert Join(fields[2..], '/') == t.name;
    assert fields[1..][1..] == fields[2..];
    assert Join(fields[1..], '/') == t.clusterId + "/" + t.name;
    assert Join(fields, '/') == InstanceId(t);
    SplitOfJoin(fields, '/');
    assert t.environmentId in fields && t.clusterId in fields && t.name in fields by {
      assert fields[0] == t.environmentId && fields[1] == t.clusterId && fields[2] == t.name;
    }
  }

  /** Ids tell connectors apart, slashes in connector names notwithstanding, when environment and
      cluster ids have none. */
  lemma InstanceIdsDiffer(t: Triple, u: Triple)
    requires '/' !in t.environmentId && '/' !in t.clusterId && '/' !in u.environmentId && '/' !in u.clusterId
    ensures InstanceId(t) == InstanceId(u) <==> t == u
  {
    if InstanceId(t) == InstanceId(u) {
      var s, v := t.clusterId + "/" + t.name, u.clusterId + "/" + u.name;
      assert InstanceId(t) == t.environmentId + "/" + s;
      assert InstanceId(u) == u.environmentId + "/" + v;
      FirstFieldIsFixed(t.environmentId, s, u.environmentId, v);
      FirstFieldIsFixed(t.clusterId, t.name, u.clusterId, u.name);
    }
  }

  /** Two triples under one id. */
  predicate Twin(t: Triple, u: Triple) {
    u != t && InstanceId(u) == InstanceId(t)
  }

  /** Nothing less will do: among all triples, one shares its id with another exactly when one of its
      fields has a slash. */
  lemma InstanceIdsMeet(t: Triple)
    ensures (exists u :: Twin(t, u)) <==>
            '/' in t.environmentId || '/' in t.clusterId || '/' in t.name
  {
    hide InstanceId;
    if '/' in t.environmentId {
      var i :| 0 <= i < |t.environmentId| && t.environmentId[i] == '/';
      var p, q := t.environmentId[..i], t.environmentId[i + 1..];
      MeetAt(p, q, t.clusterId, t.name);
      assert t.environmentId == p + "/" + q;
      assert Twin(t, Triple(p, q + "/" + t.clusterId, t.name));
    } else if '/' in t.clusterId {
      var i :| 0 <= i < |t.clusterId| && t.clusterId[i] == '/';
      var p, q := t.clusterId[..i], t.clusterId[i + 1..];
      MeetAt(t.environmentId, p, q, t.name);
      assert t.clusterId == p + "/" + q;
      assert Twin(t, Triple(t.environmentId, p, q + "/" + t.name));
    } else if '/' in t.name {
      var i :| 0 <= i < |t.name| && t.name[i] == '/';
      var p, q := t.name[..i], t.name[i + 1..];
      MeetAt(t.environmentId, t.clusterId, p, q);
      assert t.name == p + "/" + q;
      assert Twin(t, Triple(t.environmentId, t.clusterId + "/" + p, q));
    } else {
      forall u ensures !Twin(t, u)
      {
        SlashesOfId(t);
        SlashesOfId(u);
        if InstanceId(u) == InstanceId(t) {
          InstanceIdsDiffer(t, u);
        }
      }
    }
  }

  /** Three ways to read one id. */
  lemma MeetAt(p: string, q: string, r: string, s: string)
    ensures InstanceId(Triple(p + "/" + q, r, s)) == InstanceId(Triple(p, q + "/" + r, s))
    ensures InstanceId(Triple(p, q + "/" + r, s)) == InstanceId(Triple(p, q, r + "/" + s))
    ensures p + "/" + q != p && q + "/" + r != q
  {
    var whole := p + "/" + q + "/" + r + "/" + s;
    assert InstanceId(Triple(p + "/" + q, r, s)) == whole;
    assert InstanceId(Triple(p, q + "/" + r, s)) == whole;
    assert InstanceId(Triple(p, q, r + "/" + s)) == whole;
    assert |p + "/" + q| > |p| && |q + "/" + r| > |q|;
  }

  lemma SlashesOfId(t: Triple)
    ensures Count(InstanceId(t), '/') >= 2
    ensures Count(InstanceId(t), '/') == 2 <==> '/' !in t.environmentId && '/' !in t.clusterId && '/' !in t.name
  {
    assert InstanceId(t) == t.environmentId + "/" + (t.clusterId + "/" + t.name);
    CountPrepend(t.environmentId, t.clusterId + "/" + t.name);
    CountPrepend(t.clusterId, t.name);
    CountZero(t.environmentId);
    CountZero(t.clusterId);
    CountZero(t.name);
  }

  predicate SlashFree(met: seq<Triple>) {
    forall t :: t in met ==> '/' !in t.environmentId && '/' !in t.clusterId
  }

  function Set(met: seq<Triple>): set<Triple> {
    set t | t in met
  }

  lemma {:induction false} RecordedIds(met: seq<Triple>, resourceName: string -> string, id: string)
    ensures id in Recorded(met, resourceName) <==> exists t :: t in met && InstanceId(t) == id
  {
    hide InstanceId;
    if met != [] {
      var front, last := met[..|met| - 1], met[|met| - 1];
      assert met == front + [last];
      RecordedIds(front, resourceName, id);
      if InstanceId(last) == id {
        assert last in met;
      }
    }
  }

  lemma {:induction false} RecordedNames(met: seq<Triple>, resourceName: string -> string, t: Triple)
    requires SlashFree(met) && t in met
    ensures InstanceId(t) in Recorded(met, resourceName)
    ensures Recorded(met, resourceName)[InstanceId(t)] == resourceName(t.name)
  {
    var front, last := met[..|met| - 1], met[|met| - 1];
    assert met == front + [last];
    assert last in met;
    InstanceIdsDiffer(t, last);
    hide InstanceId;
    if t != last {
      RecordedNames(front, resourceName, t);
    }
  }

  lemma SetOneMore(front: seq<Triple>, last: Triple)
    ensures |Set(front + [last])| == |Set(front)| + if last in front then 0 else 1
  {
    assert Set(front + [last]) == Set(front) + {last};
  }

  lemma {:induction false} RecordedCount(met: seq<Triple>, resourceName: string -> string)
    requires SlashFree(met)
    ensures |Recorded(met, resourceName)| == |Set(met)|
  {
    if met != [] {
      var front, last := met[..|met| - 1], met[|met| - 1];
      assert met == front + [last];
      RecordedCount(front, resourceName);
      RecordedIds(front, resourceName, InstanceId(last));
      forall t | t in met ensures InstanceId(t) == InstanceId(last) <==> t == last
      {
        InstanceIdsDiffer(t, last);
      }
      hide InstanceId;
      var before := Recorded(front, resourceName);
      assert last in front <==> InstanceId(last) in before;
      SetOneMore(front, last);
      hide Set;
      if last in front {
        assert Recorded(met, resourceName).Keys == before.Keys;
      } else {
        assert Recorded(met, resourceName).Keys == before.Keys + {InstanceId(last)};
      }
    }
  }

  /** The instances are one to one with the connectors met, each under its own name. */
  lemma InstancesMatchConnectors(met: seq<Triple>, resourceName: string -> string)
    requires SlashFree(met)
    ensures var instances := Recorded(met, resourceName);
            && |instances| == |Set(met)|
            && (forall t :: t in met ==> InstanceId(t) in instances && instances[InstanceId(t)] == resourceName(t.name))
            && (forall id :: id in instances ==> exists t :: t in met && InstanceId(t) == id)
  {
    hide InstanceId, Recorded, SlashFree, Set;
    RecordedCount(met, resourceName);
    forall t | t in met
      ensures InstanceId(t) in Recorded(met, resourceName)
      ensures Recorded(met, resourceName)[InstanceId(t)] == resourceName(t.name)
    {
      RecordedNames(met, resourceName, t);
    }
    forall id | id in Recorded(met, resourceName) ensures exists t :: t in met && InstanceId(t) == id
    {
      RecordedIds(met, resourceName, id);
    }
  }

  // ---- What the walk meets ----

  /** The listings and the connectors of the organization place this connector there. */
  ghost predicate IsThere(org: Org, t: Triple)
    requires Listable(org.environments, org.clusters)
  {
    && Everything(org.environments).Ok?
    && (exists e :: e in Everything(org.environments).value && e.id == t.environmentId)
    && IsThereIn(org, t)
  }

  ghost predicate IsThereIn(org: Org, t: Triple)
    requires Listable(org.environments, org.clusters)
  {
    var clusters := Everything(org.clusters(t.environmentId));
    && clusters.Ok? && (exists c :: c in clusters.value && c.id == t.clusterId)
    && org.connectors(t.environmentId, t.clusterId).Ok?
    && t.name in org.connectors(t.environmentId, t.clusterId).value
  }

  lemma ConnectorsMeet(org: Org, environmentId: string, clusterId: string, t: Triple)
    requires org.connectors(environmentId, clusterId).Ok?
    ensures t in Connectors(org, environmentId, clusterId).met <==>
            && t.environmentId == environmentId && t.clusterId == clusterId
            && t.name in org.connectors(environmentId, clusterId).value
  {
    var names, met := org.connectors(environmentId, clusterId).value, Connectors(org, environmentId, clusterId).met;
    if t.environmentId == environmentId && t.clusterId == clusterId && t.name in names {
      var i :| 0 <= i < |names| && names[i] == t.name;
      assert met[i] == t;
    }
  }

  lemma {:induction false} ClustersMeet(org: Org, environmentId: string, clusters: seq<KafkaCluster>, t: Triple)
    requires !ConnectorsOfClusters(org, environmentId, clusters).failed
    ensures t in ConnectorsOfClusters(org, environmentId, clusters).met <==>
            && t.environmentId == environmentId && (exists c :: c in clusters && c.id == t.clusterId)
            && org.connectors(environmentId, t.clusterId).Ok?
            && t.name in org.connectors(environmentId, t.clusterId).value
  {
    if clusters != [] {
      var front, last := clusters[..|clusters| - 1], clusters[|clusters| - 1];
      ClustersMeet(org, environmentId, front, t);
      assert clusters == front + [last];
      ConnectorsMeet(org, environmentId, last.id, t);
    }
  }

  lemma {:induction false} EnvironmentsMeet(org: Org, environments: seq<Environment>, t: Triple)
    requires Listable(org.environments, org.clusters) && !ConnectorsOfEnvironments(org, environments).failed
    ensures t in ConnectorsOfEnvironments(org, environments).met <==>
            (exists e :: e in environments && e.id == t.environmentId) && IsThereIn(org, t)
  {
    if environments != [] {
      var front, last := environments[..|environments| - 1], environments[|environments| - 1];
      EnvironmentsMeet(org, front, t);
      assert environments == front + [last];
      ClustersMeet(org, last.id, Everything(org.clusters(last.id)).value, t);
      hide ConnectorsOfClusters, Listing.Everything, Listing.Listable;
      assert last in environments;
    }
  }

  /** A walk without failure meets exactly the connectors that the organization lists: each under an
      environment of the organization, a cluster of that environment, and a name in that cluster. */
  lemma WalkMeetsWhatIsThere(org: Org, t: Triple)
    requires Listable(org.environments, org.clusters) && !AllConnectors(org).failed
    ensures t in AllConnectors(org).met <==> IsThere(org, t)
  {
    EnvironmentsMeet(org, Everything(org.environments).value, t);
  }

  // ---- Failures ----

  /** Every call that succeeds in the first organization gives the same in the second. */
  ghost predicate Completes(org': Org, org: Org)
    requires Listable(org.environments, org.clusters) && Listable(org'.environments, org'.clusters)
  {
    && (Everything(org.environments).Ok? ==> Everything(org'.environments) == Everything(org.environments))
    && (forall e :: Everything(org.clusters(e)).Ok? ==> Everything(org'.clusters(e)) == Everything(org.clusters(e)))
    && (forall e, c :: org.connectors(e, c).Ok? ==> org'.connectors(e, c) == org.connectors(e, c))
  }

  predicate Prefix(w: Walk, v: Walk) {
    w.met <= v.met && (!w.failed ==> w == v)
  }

  lemma ThenPrefix(w: Walk, v: Walk, next: Walk, more: Walk)
    requires Prefix(w, v) && Prefix(next, more)
    ensures Prefix(Then(w, next), Then(v, more))
  {
  }

  lemma {:induction false} ClustersPrefix(org': Org, org: Org, environmentId: string, clusters: seq<KafkaCluster>)
    requires Listable(org.environments, org.clusters) && Listable(org'.environments, org'.clusters)
    requires Completes(org', org)
    ensures Prefix(ConnectorsOfClusters(org, environmentId, clusters),
                   ConnectorsOfClusters(org', environmentId, clusters))
  {
    if clusters != [] {
      var last := |clusters| - 1;
      ClustersPrefix(org', org, environmentId, clusters[..last]);
      ThenPrefix(ConnectorsOfClusters(org, environmentId, clusters[..last]),
                 ConnectorsOfClusters(org', environmentId, clusters[..last]),
                 Connectors(org, environmentId, clusters[last].id),
                 Connectors(org', environmentId, clusters[last].id));
    }
  }

  lemma {:induction false} EnvironmentsPrefix(org': Org, org: Org, environments: seq<Environment>)
    requires Listable(org.environments, org.clusters) && Listable(org'.environments, org'.clusters)
    requires Completes(org', org)
    ensures Prefix(ConnectorsOfEnvironments(org, environments), ConnectorsOfEnvironments(org', environments))
  {
    if environments != [] {
      var last := |environments| - 1;
      var id := environments[last].id;
      EnvironmentsPrefix(org', org, environments[..last]);
      if Everything(org.clusters(id)).Ok? {
        ClustersPrefix(org', org, id, Everything(org.clusters(id)).value);
      }
      ThenPrefix(ConnectorsOfEnvironments(org, environments[..last]),
                 ConnectorsOfEnvironments(org', environments[..last]),
                 ConnectorsOfEnvironment(org, id), ConnectorsOfEnvironment(org', id));
    }
  }

  /** A failure midway loses instances but invents none: what was recorded is recorded as well when
      the failing calls succeed, under the same names where ids tell connectors apart, and it is all
      of it when none failed. */
  lemma FailureOnlyLoses(org': Org, org: Org, resourceName: string -> string)
    requires Listable(org.environments, org.clusters) && Listable(org'.environments, org'.clusters)
    requires Completes(org', org)
    ensures var part := Recorded(AllConnectors(org).met, resourceName);
            var whole := Recorded(AllConnectors(org').met, resourceName);
            && part.Keys <= whole.Keys
            && (SlashFree(AllConnectors(org').met) ==> forall id :: id in part ==> whole[id] == part[id])
            && (!AllConnectors(org).failed ==> part == whole)
  {
    if Everything(org.environments).Ok? {
      EnvironmentsPrefix(org', org, Everything(org.environments).value);
    }
    var met, met' := AllConnectors(org).met, AllConnectors(org').met;
    assert forall t :: t in met ==> t in met';
    hide InstanceId, Recorded, AllConnectors, Completes, Listing.Listable, Listing.Everything;
    forall id | id in Recorded(met, resourceName) ensures id in Recorded(met', resourceName)
    {
      RecordedIds(met, resourceName, id);
      RecordedIds(met', resourceName, id);
    }
    if SlashFree(met') {
      InstancesMatchConnectors(met, resourceName);
      InstancesMatchConnectors(met', resourceName);
    }
  }
}
