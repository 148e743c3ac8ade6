/** How the pieces fit together when a cluster is bootstrapped: the seed
    deployments are the pods the discovery loop lists, and their distinct
    node names make the discovered map complete. */
module Bootstrap {
  import opened Labels
  import opened NodeNaming
  import opened CliArgs
  import opened DeploymentSynthesis
  import opened SeedDiscovery

  /** The `seed=true` filter of the discovery list call selects a node's pod
      exactly when the node was deployed as a seed. */
  lemma SeedFilterSelectsSeedNodes(index: nat, isSeed: bool, peers: seq<NodeAddr>, namespace: string,
                                   nodesPort: U16, encode: PeerEncoder)
    ensures Matches(SeedSelector, BuildDeployment(index, isSeed, peers, namespace, nodesPort, encode).template.labels)
            <==> isSeed
  {
    var d := BuildDeployment(index, isSeed, peers, namespace, nodesPort, encode);
    assert d.template.labels == PodLabels(NodeName(index), isSeed);
    SeedFilterOnPodLabels(NodeName(index), isSeed);
  }

  /** The `seed=true` filter on a node's pod labels reads off its role. */
  lemma SeedFilterOnPodLabels(name: string, isSeed: bool)
    ensures Matches(SeedSelector, PodLabels(name, isSeed)) <==> isSeed
  {
    var labels := PodLabels(name, isSeed);
    if Matches(SeedSelector, labels) {
      assert "seed" in SeedSelector;
    }
  }

  /** Pods whose `id` labels are the names of pairwise distinct node indices
      carry pairwise distinct ids. */
  lemma DistinctIndicesGiveDistinctIds(pods: seq<Pod>, indices: seq<nat>)
    requires |indices| == |pods|
    requires forall k :: 0 <= k < |pods| ==> "id" in pods[k].labels && pods[k].labels["id"] == NodeName(indices[k])
    requires forall i, j :: 0 <= i < j < |indices| ==> indices[i] != indices[j]
    ensures AllHaveId(pods)
    ensures DistinctIds(pods)
  {
    forall i, j | 0 <= i < j < |pods|
      ensures IdOf(pods[i]) != IdOf(pods[j])
    {
      NodeNameInjective(indices[i], indices[j]);
    }
  }

  /** When the seed pods of distinct nodes all report an address, the
      discovered map has one entry per seed, keyed by its node name and
      holding that pod's address. */
  lemma SeedMapComplete(pods: seq<Pod>, indices: seq<nat>)
    requires |indices| == |pods|
    requires forall k :: 0 <= k < |pods| ==> "id" in pods[k].labels && pods[k].labels["id"] == NodeName(indices[k])
    requires forall i, j :: 0 <= i < j < |indices| ==> indices[i] != indices[j]
    requires forall k :: 0 <= k < |pods| ==> HasAddress(pods[k])
    ensures AllHaveId(pods)
    ensures |AddressMapUpTo(pods, |pods|)| == |pods|
    ensures forall k :: 0 <= k < |pods| ==>
      NodeName(indices[k]) in AddressMapUpTo(pods, |pods|)
      && AddressMapUpTo(pods, |pods|)[NodeName(indices[k])] == AddressOf(pods[k])
  {
    DistinctIndicesGiveDistinctIds(pods, indices);
    AddressMapUpToSize(pods, |pods|);
    AddressMapUpToKeys(pods, |pods|);
    AddressMapUpToValues(pods, |pods|);
    var m := AddressMapUpTo(pods, |pods|);
    forall k | 0 <= k < |pods|
      ensures NodeName(indices[k]) in m && m[NodeName(indices[k])] == AddressOf(pods[k])
    {
      assert IdOf(pods[k]) == NodeName(indices[k]);
      assert LastWithIdIn(pods, k, |pods|);
    }
  }
}
