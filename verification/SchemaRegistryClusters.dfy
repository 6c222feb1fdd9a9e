/** Schema registry clusters of one environment or of all, and the three ways to read one. */
module SchemaRegistryClusters {
  import opened Wrappers
  import opened Listing

  datatype Cluster = Cluster(id: string, displayName: string)

  /** The listings of an organization, and what a read by id answers for an environment and a cluster. */
  datatype Org = Org(environments: Server<Environment>, clusters: string -> Server<Cluster>,
                     get: (string, string) -> Result<Cluster, ListError>)

  /** Every cluster of the environments, environment by environment; one failure spoils them all. */
  ghost function ClustersOf(org: Org, environmentIds: seq<string>): Result<seq<Cluster>, ListError>
    requires Listable(org.environments, org.clusters)
    decreases |environmentIds|
  {
    if environmentIds == [] then Ok([])
    else
      var last := |environmentIds| - 1;
      match ClustersOf(org, environmentIds[..last])
      case Err(_) => Err(ListFailed)
      case Ok(before) =>
        match Everything(org.clusters(environmentIds[last]))
        case Err(_) => Err(ListFailed)
        case Ok(clusters) => Ok(before + clusters)
  }

  function Ids(environments: seq<Environment>): (ids: seq<string>)
    ensures |ids| == |environments|
    ensures forall i :: 0 <= i < |ids| ==> ids[i] == environments[i].id
  {
    seq(|environments|, i requires 0 <= i < |environments| => environments[i].id)
  }

  ghost function AllClusters(org: Org, environmentId: string): Result<seq<Cluster>, ListError>
    requires Listable(org.environments, org.clusters)
  {
    if environmentId != "" then ClustersOf(org, [environmentId])
    else
      match Everything(org.environments)
      case Err(e) => Err(e)
      case Ok(environments) => ClustersOf(org, Ids(environments))
  }

  lemma {:induction false} FailureSpreads(org: Org, environmentIds: seq<string>, i: nat)
    requires Listable(org.environments, org.clusters) && i <= |environmentIds|
    ensures ClustersOf(org, environmentIds[..i]).Err? ==> ClustersOf(org, environmentIds) == Err(ListFailed)
    decreases |environmentIds|
  {
    if i < |environmentIds| {
      var front := environmentIds[..|environmentIds| - 1];
      assert environmentIds[..i] == front[..i];
      FailureSpreads(org, front, i);
    } else {
      assert environmentIds[..i] == environmentIds;
    }
  }

  method LoadAllClusters(org: Org, environmentId: string) returns (r: Result<seq<Cluster>, ListError>)
    requires Listable(org.environments, org.clusters)
    ensures r == AllClusters(org, environmentId)
  {
    var clusters: seq<Cluster> := [];
    var environments;
    if environmentId != "" {
      environments := [Environment(environmentId, "")];
    } else {
      var listed := LoadAll(org.environments);
      if listed.Err? {
        return Err(listed.error);
      }
      environments := listed.value;
    }
    ghost var ids := Ids(environments);
    assert environmentId != "" ==> ids == [environmentId];
    for i := 0 to |environments|
      invariant ClustersOf(org, ids[..i]) == Ok(clusters)
    {
      var inEnvironment := LoadAll(org.clusters(environments[i].id));
      assert ids[..i + 1][..i] == ids[..i];
      if inEnvironment.Err? {
        assert ClustersOf(org, ids[..i + 1]) == Err(ListFailed);
        FailureSpreads(org, ids, i + 1);
        return Err(ListFailed);
      }
      clusters := clusters + inEnvironment.value;
    }
    assert ids[..|environments|] == ids;
    return Ok(clusters);
  }

  /** The clusters of one environment loaded alone. */
  lemma AloneIsItsListing(org: Org, id: string)
    requires Listable(org.environments, org.clusters) && id != ""
    ensures AllClusters(org, id) == Everything(org.clusters(id))
  {
    assert [id][..0] == [];
    assert ClustersOf(org, [id][..0]) == Ok([]);
    if Everything(org.clusters(id)).Ok? {
      assert [] + Everything(org.clusters(id)).value == Everything(org.clusters(id)).value;
    } else {
      assert Everything(org.clusters(id)).error == ListFailed;
    }
  }

  /** What loading each environment alone gives, end to end. */
  ghost function EachAlone(org: Org, ids: seq<string>): seq<seq<Cluster>>
    requires Listable(org.environments, org.clusters)
    requires forall id :: id in ids ==> AllClusters(org, id).Ok?
  {
    seq(|ids|, i requires 0 <= i < |ids| => AllClusters(org, ids[i]).value)
  }

  lemma {:induction false} FlattenAppend<T>(parts: seq<seq<T>>, last: seq<T>)
    ensures Flatten(parts + [last]) == Flatten(parts) + last
  {
    if parts == [] {
      assert parts + [last] == [last];
      assert Flatten([last]) == last + Flatten([last][1..]);
      assert [last][1..] == [];
    } else {
      assert (parts + [last])[1..] == parts[1..] + [last];
      FlattenAppend(parts[1..], last);
    }
  }

  lemma {:induction false} ClustersOfEachAlone(org: Org, ids: seq<string>)
    requires Listable(org.environments, org.clusters) && forall id :: id in ids ==> id != ""
    ensures ClustersOf(org, ids).Ok? <==> forall id :: id in ids ==> AllClusters(org, id).Ok?
    ensures ClustersOf(org, ids).Ok? ==> ClustersOf(org, ids) == Ok(Flatten(EachAlone(org, ids)))
    decreases |ids|
  {
    if ids != [] {
      var front, last := ids[..|ids| - 1], ids[|ids| - 1];
      assert ids == front + [last];
      assert last in ids && forall id :: id in front ==> id in ids;
      ClustersOfEachAlone(org, front);
      AloneIsItsListing(org, last);
      if ClustersOf(org, ids).Ok? {
        FlattenAppend(EachAlone(org, front), AllClusters(org, last).value);
        assert EachAlone(org, ids) == EachAlone(org, front) + [AllClusters(org, last).value];
      }
    }
  }

  /** With no environment given, the result is that of loading each environment alone, end to end
      in the order of the environments, and it fails exactly when one of those loads does. */
  lemma AllIsEachAlone(org: Org, environments: seq<Environment>)
    requires Listable(org.environments, org.clusters) && Everything(org.environments) == Ok(environments)
    requires forall e :: e in environments ==> e.id != ""
    ensures AllClusters(org, "").Ok? <==> forall id :: id in Ids(environments) ==> AllClusters(org, id).Ok?
    ensures AllClusters(org, "").Ok? ==> AllClusters(org, "") == Ok(Flatten(EachAlone(org, Ids(environments))))
  {
    ClustersOfEachAlone(org, Ids(environments));
  }

  // ---- Reading one cluster ----

  datatype ReadError =
    | EnvironmentMissing | NotListed | NoCluster | SeveralClusters | NameAmbiguous | NameUnknown | NotRead

  /** What a read by id makes of the answer for that environment and id. */
  predicate IsRead(r: Result<Cluster, ReadError>, answer: Result<Cluster, ListError>) {
    r == match answer
         case Err(_) => Err(NotRead)
         case Ok(c) => Ok(c)
  }

  /** By id, by display name, or the only one there is, in this order of preference. */
  method ReadCluster(org: Org, environmentId: string, id: string, displayName: string)
    returns (r: Result<Cluster, ReadError>)
    requires Listable(org.environments, org.clusters)
    ensures environmentId == "" ==> r == Err(EnvironmentMissing)
    ensures environmentId != "" && id != "" ==> IsRead(r, org.get(environmentId, id))
    ensures environmentId != "" && id == "" && displayName != "" ==>
              r == match Everything(org.clusters(environmentId))
                   case Err(_) => Err(NotListed)
                   case Ok(clusters) =>
                     match TheNamed(clusters, (c: Cluster) => c.displayName, displayName)
                     case Found(c) => Ok(c)
                     case NotFound => Err(NameUnknown)
                     case Ambiguous => Err(NameAmbiguous)
    ensures environmentId != "" && id == "" && displayName == "" ==>
              r == match Everything(org.clusters(environmentId))
                   case Err(_) => Err(NotListed)
                   case Ok(clusters) =>
                     if clusters == [] then Err(NoCluster)
                     else if |clusters| > 1 then Err(SeveralClusters)
                     else if org.get(environmentId, clusters[0].id).Ok? then
                       Ok(org.get(environmentId, clusters[0].id).value)
                     else Err(NotRead)
  {
    if environmentId == "" {
      return Err(EnvironmentMissing);
    }
    if id != "" {
      return ById(org, environmentId, id);
    } else if displayName != "" {
      var found := ReadByDisplayName(org.clusters(environmentId), (c: Cluster) => c.displayName, displayName);
      if found.Err? {
        return Err(NotListed);
      }
      match found.value {
        case Found(c) => return Ok(c);
        case NotFound => return Err(NameUnknown);
        case Ambiguous => return Err(NameAmbiguous);
      }
    }
    var clusters := LoadAll(org.clusters(environmentId));
    if clusters.Err? {
      return Err(NotListed);
    }
    if |clusters.value| == 0 {
      return Err(NoCluster);
    }
    if |clusters.value| > 1 {
      return Err(SeveralClusters);
    }
    return ById(org, environmentId, clusters.value[0].id);
  }

  function ById(org: Org, environmentId: string, id: string): Result<Cluster, ReadError> {
    match org.get(environmentId, id)
    case Err(_) => Err(NotRead)
    case Ok(c) => Ok(c)
  }
}
