/** `create_or_reuse_namespace`: the cluster's namespaces are a map from
    name to labels; the call creates the namespace only when it is absent. */
module NamespaceProvisioner {
  import opened Labels

  type Cluster = map<string, LabelMap>

  /** The cluster after the call and the number of create requests issued. */
  datatype Provisioned = Provisioned(cluster: Cluster, creates: nat)

  /** The labels a freshly created namespace carries: `name=<name>`. */
  function NamespaceLabels(name: string): (labels: LabelMap)
    ensures labels.Keys == {"name"} && labels["name"] == name
  {
    map["name" := name]
  }

  function CreateOrReuseNamespace(cluster: Cluster, name: string): (p: Provisioned)
    ensures name in p.cluster
    ensures name in cluster ==> p.cluster == cluster && p.creates == 0
    ensures name !in cluster ==> p.creates == 1 && p.cluster[name] == NamespaceLabels(name)
    ensures p.cluster.Keys == cluster.Keys + {name}
    ensures forall other :: other in cluster && other != name ==> p.cluster[other] == cluster[other]
  {
    if name in cluster then Provisioned(cluster, 0)
    else Provisioned(cluster[name := NamespaceLabels(name)], 1)
  }

  /** A second call with the same name issues no create and changes
      nothing, so two calls in a row create at most once, and exactly once
      when the namespace was absent. */
  lemma CreateOrReuseIdempotent(cluster: Cluster, name: string)
    ensures var first := CreateOrReuseNamespace(cluster, name);
      var second := CreateOrReuseNamespace(first.cluster, name);
      && second.cluster == first.cluster
      && second.creates == 0
      && first.creates + second.creates == (if name in cluster then 0 else 1)
  {
  }

  /** Provisioning one namespace never disturbs another one's state. */
  lemma CreateOrReuseCommutes(cluster: Cluster, a: string, b: string)
    ensures var ab := CreateOrReuseNamespace(CreateOrReuseNamespace(cluster, a).cluster, b).cluster;
      var ba := CreateOrReuseNamespace(CreateOrReuseNamespace(cluster, b).cluster, a).cluster;
      ab == ba
  {
  }
}
