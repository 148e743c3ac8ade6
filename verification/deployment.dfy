/** The `Deployment` object `deploy_node` builds for one node before it is
    submitted; only the fields the code sets are modelled, every other field
    keeps the platform's default. */
module DeploymentSynthesis {
  import opened Wrappers
  import opened Labels
  import opened NodeNaming
  import opened CliArgs

  /** The port the node's health endpoint listens on. */
  const HealthPort: int := 3154
  const HealthPath: string := "/health"
  const NodeImage: string := "consensus-node"
  const Entrypoint: string := "./k8s_entrypoint.sh"
  const ImagePullPolicy: string := "Never"
  const NodeIdVar: string := "NODE_ID"
  const PublicAddrVar: string := "PUBLIC_ADDR"
  /** The pod field the platform substitutes for `PUBLIC_ADDR` at start. */
  const PodIpField: string := "status.podIP"

  /** The type of the shared node port (`config::NODES_PORT` is a `u16`). */
  type U16 = x: int | 0 <= x < 0x1_0000

  /** An HTTP GET probe. */
  datatype Probe = HttpGet(path: string, port: int)

  /** An environment variable's value: a literal, or a reference to a field
      of the pod resolved when the pod starts. */
  datatype EnvSource = Literal(value: string) | FieldRef(fieldPath: string)

  datatype EnvVar = EnvVar(name: string, source: EnvSource)

  datatype Container = Container(
    name: string,
    image: string,
    env: seq<EnvVar>,
    command: seq<string>,
    args: seq<string>,
    imagePullPolicy: string,
    ports: seq<int>,
    livenessProbe: Probe,
    readinessProbe: Probe)

  datatype PodTemplate = PodTemplate(labels: LabelMap, containers: seq<Container>)

  datatype Deployment = Deployment(
    name: string,
    namespace: string,
    selector: LabelMap,
    replicas: int,
    template: PodTemplate)

  /** The first variable called `name`, if any. */
  function LookupEnv(env: seq<EnvVar>, name: string): (r: Option<EnvSource>)
    ensures r.Some? <==> exists k :: 0 <= k < |env| && env[k].name == name
    ensures r.Some? ==> exists k :: 0 <= k < |env| && env[k] == EnvVar(name, r.value)
  {
    if |env| == 0 then None
    else if env[0].name == name then Some(env[0].source)
    else
      var r := LookupEnv(env[1..], name);
      assert forall k :: 1 <= k < |env| ==> env[k] == env[1..][k - 1];
      r
  }

  /** The health probe both probe slots carry. */
  function HealthProbe(): (p: Probe)
    ensures p.path == HealthPath && p.port == HealthPort
  {
    HttpGet(HealthPath, HealthPort)
  }

  /** The pod-template labels of node `name`: its app and identity labels
      and its role. */
  function PodLabels(name: string, isSeed: bool): (labels: LabelMap)
    ensures labels.Keys == {"app", "id", "seed"}
    ensures labels["app"] == name && labels["id"] == name
    ensures labels["seed"] == "true" <==> isSeed
    ensures labels["seed"] == BoolString(isSeed)
  {
    map["app" := name, "id" := name, "seed" := BoolString(isSeed)]
  }

  /** The selector of node `name`: its app label only. */
  function AppSelector(name: string): (selector: LabelMap)
    ensures selector.Keys == {"app"} && selector["app"] == name
    ensures forall isSeed :: Matches(selector, PodLabels(name, isSeed))
  {
    map["app" := name]
  }

  /** The single container of node `name`. */
  function NodeContainer(name: string, peers: seq<NodeAddr>, nodesPort: U16, encode: PeerEncoder): (c: Container)
    ensures c.name == name
    ensures c.image == NodeImage
    ensures c.command == [Entrypoint]
    ensures |c.env| == 2
    ensures c.imagePullPolicy == ImagePullPolicy
    ensures LookupEnv(c.env, NodeIdVar) == Some(Literal(name))
    ensures LookupEnv(c.env, PublicAddrVar) == Some(FieldRef(PodIpField))
    ensures c.args == GetCliArgs(peers, encode)
    ensures c.ports == [nodesPort, HealthPort]
    ensures c.livenessProbe == c.readinessProbe == HttpGet(HealthPath, HealthPort)
  {
    Container(
      name := name,
      image := NodeImage,
      env := [EnvVar(NodeIdVar, Literal(name)), EnvVar(PublicAddrVar, FieldRef(PodIpField))],
      command := [Entrypoint],
      args := GetCliArgs(peers, encode),
      imagePullPolicy := ImagePullPolicy,
      ports := [nodesPort as int, HealthPort],
      livenessProbe := HealthProbe(),
      readinessProbe := HealthProbe())
  }

  /** The descriptor for node `index`; `peers` is empty for a seed node. */
  function BuildDeployment(index: nat, isSeed: bool, peers: seq<NodeAddr>, namespace: string,
                           nodesPort: U16, encode: PeerEncoder): (d: Deployment)
    ensures d.name == NodeName(index)
    ensures d.namespace == namespace
    ensures d.replicas == 1
    ensures d.template.labels.Keys == {"app", "id", "seed"}
    ensures d.template.labels["app"] == d.name && d.template.labels["id"] == d.name
    ensures d.template.labels["seed"] == "true" <==> isSeed
    ensures d.template.labels["seed"] == BoolString(isSeed)
    ensures Matches(d.selector, d.template.labels)
    ensures d.selector.Keys == {"app"}
    ensures |d.template.containers| == 1
    ensures var c := d.template.containers[0];
      && c.name == d.name
      && c.image == NodeImage
      && c.command == [Entrypoint]
      && |c.env| == 2
      && c.imagePullPolicy == ImagePullPolicy
      && LookupEnv(c.env, NodeIdVar) == Some(Literal(d.name))
      && LookupEnv(c.env, PublicAddrVar) == Some(FieldRef(PodIpField))
      && c.args == GetCliArgs(peers, encode)
      && c.ports == [nodesPort, HealthPort]
      && c.livenessProbe == c.readinessProbe == HttpGet(HealthPath, HealthPort)
  {
    var name := NodeName(index);
    Deployment(
      name := name,
      namespace := namespace,
      selector := AppSelector(name),
      replicas := 1,
      template := PodTemplate(
        labels := PodLabels(name, isSeed),
        containers := [NodeContainer(name, peers, nodesPort, encode)]))
  }

  /** A deployment manages exactly its own pod: the selector of node `i`
      matches the pod template of node `j` only when `i == j`, whatever the
      roles, peers and namespaces. */
  lemma SelectorIsolatesNode(i: nat, j: nat, seedI: bool, seedJ: bool,
                             peersI: seq<NodeAddr>, peersJ: seq<NodeAddr>,
                             nsI: string, nsJ: string, nodesPort: U16, encode: PeerEncoder)
    ensures Matches(BuildDeployment(i, seedI, peersI, nsI, nodesPort, encode).selector,
                    BuildDeployment(j, seedJ, peersJ, nsJ, nodesPort, encode).template.labels)
            <==> i == j
  {
    var di := BuildDeployment(i, seedI, peersI, nsI, nodesPort, encode);
    var dj := BuildDeployment(j, seedJ, peersJ, nsJ, nodesPort, encode);
    NodeNameInjective(i, j);
    if Matches(di.selector, dj.template.labels) {
      assert "app" in di.selector;
      assert dj.template.labels["app"] == di.selector["app"];
    }
  }

  /** The deployment's identity label reads back as its node index. */
  lemma IdentityLabelNamesIndex(index: nat, isSeed: bool, peers: seq<NodeAddr>, namespace: string,
                                nodesPort: U16, encode: PeerEncoder)
    ensures var d := BuildDeployment(index, isSeed, peers, namespace, nodesPort, encode);
      ParseNodeName(d.template.labels["id"]) == Some(index)
  {
    NodeNameRoundTrip(index);
  }

  /** A seed node's container starts without peer arguments; a non-seed
      node started with peers recovers them from its arguments. */
  lemma PeersReachNode(index: nat, isSeed: bool, peers: seq<NodeAddr>, namespace: string,
                       nodesPort: U16, encode: PeerEncoder, decode: PeerDecoder)
    requires RoundTrips(encode, decode)
    ensures var c := BuildDeployment(index, isSeed, peers, namespace, nodesPort, encode).template.containers[0];
      && (|peers| == 0 <==> c.args == [])
      && ParseCliArgs(c.args, decode) == Some(peers)
  {
    CliArgsRoundTrip(peers, encode, decode);
  }

  /** The peer list of the non-seed example. */
  function ExamplePeers(): seq<NodeAddr>
  {
    [NodeAddr("consensus-node-00", "10.0.0.1:3154")]
  }

  /** Node 3 deployed as a non-seed with one peer. */
  lemma NonSeedDeploymentExample(nodesPort: U16, encode: PeerEncoder)
    ensures BuildDeployment(3, false, ExamplePeers(), "ns1", nodesPort, encode).name == "consensus-node-03"
    ensures var labels := BuildDeployment(3, false, ExamplePeers(), "ns1", nodesPort, encode).template.labels;
      labels["app"] == "consensus-node-03" && labels["id"] == "consensus-node-03" && labels["seed"] == "false"
    ensures BuildDeployment(3, false, ExamplePeers(), "ns1", nodesPort, encode).template.containers[0].args
            == [GossipStaticOutboundFlag, encode(ExamplePeers())]
    ensures BuildDeployment(3, false, ExamplePeers(), "ns1", nodesPort, encode).template.containers[0].livenessProbe
            == HttpGet("/health", 3154)
  {
    NodeNameExamples();
  }

  /** A seed node starts without peer arguments. */
  lemma SeedDeploymentExample(nodesPort: U16, encode: PeerEncoder)
    ensures var d := BuildDeployment(0, true, [], "ns1", nodesPort, encode);
      && d.template.containers[0].args == []
      && d.template.labels["seed"] == "true"
  {
  }
}
