# Consensus test-cluster bootstrap on Kubernetes — a Dafny model

The `node/tools` crate of era-consensus brings up a consensus test cluster on
Kubernetes (`node/tools/src/k8s.rs`). It makes sure a namespace exists. It
builds one `Deployment` per node, giving each node its identity, its seed or
non-seed role and its peer arguments. Then it polls the seed pods until they
run and reads their pod IPs. This project models the pure decisions inside
that file and proves properties about them. The Kubernetes API is replaced by
plain data: the namespaces are a map, and the pod list calls are a sequence of
observations.

Modules:

- `Wrappers`: `Option` and `Result`.
- `Labels`: label maps, equality-based selectors (`Matches`), and Rust's `bool` display.
- `NodeNaming`: `format!("consensus-node-{node_index:0>2}")` and a parser that reads the index back.
- `CliArgs`: `get_cli_args`. The peer serializer is a function parameter (`PeerEncoder`).
- `DeploymentSynthesis`: the `Deployment` value built in `deploy_node`.
- `SeedDiscovery`: `is_pod_running`, `get_seed_pods`, the `Retry::spawn` loop and the id → pod IP map built in `get_seed_node_addrs`.
- `NamespaceProvisioner`: `create_or_reuse_namespace`.
- `Bootstrap`: facts that link the modules. The `seed=true` list filter selects exactly the seed deployments. Distinct node indices give a complete seed map.

What the code does, stated precisely:

- `{:0>2}` sets a minimum width. An index of 100 or more gives a longer name (`consensus-node-123`), and names stay distinct; the lemmas cover all `nat` indices.
- `FixedInterval::from_millis(1000).take(15)` gives 15 delays. `Retry::spawn` makes one attempt, then one more after each delay, so there are at most 16 list attempts: one initial attempt and the 15 retries the comment at k8s.rs:184 mentions. This attempt-per-delay behaviour of `tokio_retry` is an assumption of the model.
- When every attempt fails, `Retry::spawn` returns the error of the last attempt. That is "Pods are not ready" unless the last list request itself failed. In that case it is the API error.
- The seed map has at most `amount` entries, because a later pod with the same `id` overwrites an earlier one. It has exactly `amount` entries when the ids are distinct, which holds for pods named by distinct node indices (`Bootstrap.SeedMapComplete`).

## Model

| member | source | states |
|---|---|---|
| NodeNaming.Decimal | node/tools/src/k8s.rs:78 | the decimal rendering of the index: all digits, at least one, a leading '0' only for 0, one digit below 10 and at most two below 100 |
| NodeNaming.PadLeft | node/tools/src/k8s.rs:78 | the `0>2` fill: the result is at least `width` long, ends with the input, and every added character is the fill |
| NodeNaming.NodeName | node/tools/src/k8s.rs:78 | the node name is `consensus-node-` followed by digits only; the digit field is as long as the decimal index but at least two characters, and it starts with '0' only for indices below 10; it has exactly 17 characters iff the index is below 100 |
| NodeNaming.DecimalValue | node/tools/src/k8s.rs:78 | the digits of the rendering denote the index again |
| NodeNaming.NodeNameRoundTrip | node/tools/src/k8s.rs:78 | parsing a node name gives back its index, for every index including those of three or more digits |
| NodeNaming.NodeNameInjective | node/tools/src/k8s.rs:78 | two node names are equal iff their indices are equal |
| NodeNaming.NodeNameExamples | node/tools/src/k8s.rs:78 | index 3 gives `consensus-node-03`, 42 gives `consensus-node-42`, 123 gives `consensus-node-123` |
| CliArgs.GetCliArgs | node/tools/src/k8s.rs:220-236 | no arguments iff there are no peers; otherwise exactly the gossip flag followed by the serialized peer list |
| CliArgs.CliArgsRoundTrip | node/tools/src/k8s.rs:220-236 | if the serializer round-trips, a node recovers exactly its peer list, in order, from its arguments, including the empty list of a seed |
| CliArgs.CliArgsInjective | node/tools/src/k8s.rs:220-236 | if the serializer round-trips, different peer lists (or orders) give different argument vectors |
| Labels.BoolString | node/tools/src/k8s.rs:96 | the `seed` label text is `"true"` iff the flag is set and `"false"` iff it is not |
| DeploymentSynthesis.HealthProbe | node/tools/src/k8s.rs:135-150 | the probe is an HTTP GET of `/health` on port 3154 |
| DeploymentSynthesis.PodLabels | node/tools/src/k8s.rs:92-97 | the pod labels are exactly app, id and seed; app and id are the node name, and seed is `"true"` iff the node is a seed |
| DeploymentSynthesis.AppSelector | node/tools/src/k8s.rs:86-89 | the selector holds only the app label, with the node name, and it matches the node's pod labels whatever its role |
| DeploymentSynthesis.NodeContainer | node/tools/src/k8s.rs:101-152 | the container is named after the node and runs the node image through the entrypoint with pull policy `Never`; it has exactly two env vars, `NODE_ID` as the literal name and `PUBLIC_ADDR` as a field reference to `status.podIP`; its args are `get_cli_args(peers)`, its ports are the node port then 3154, and its liveness and readiness probes are both GET `/health` on 3154 |
| DeploymentSynthesis.BuildDeployment | node/tools/src/k8s.rs:77-159 | the descriptor is named after the node, is in the given namespace, and has one replica; its pod labels are exactly app, id and seed, with `seed` true iff it is a seed node; the selector is `{app}` and a sub-map of the pod labels; it has one container named after the node, running the node image via the entrypoint; the container has exactly two env vars: `NODE_ID` is the literal name and `PUBLIC_ADDR` is a field reference to `status.podIP`; the args are `get_cli_args(peers)`; the ports are the node port then 3154; the liveness and readiness probes are equal |
| DeploymentSynthesis.SelectorIsolatesNode | node/tools/src/k8s.rs:86-97 | node i's selector matches node j's pod labels iff i = j, whatever the roles, peers and namespaces, so each deployment manages only its own pod |
| DeploymentSynthesis.IdentityLabelNamesIndex | node/tools/src/k8s.rs:92-97 | the pod's `id` label parses back to the node index |
| DeploymentSynthesis.PeersReachNode | node/tools/src/k8s.rs:123 | the container's args are empty iff there are no peers, and a node decodes exactly its peer list from them |
| DeploymentSynthesis.NonSeedDeploymentExample | node/tools/src/k8s.rs:77-159 | node 3 as a non-seed with one peer is `consensus-node-03`, with labels app and id equal to that name and `seed=false`; its args are the flag and the encoded peers, and its probe is `/health` on 3154 |
| DeploymentSynthesis.SeedDeploymentExample | node/tools/src/k8s.rs:77-159 | a seed with no peers has empty args and `seed=true` |
| SeedDiscovery.TryListSeedPods | node/tools/src/k8s.rs:201-218 | an attempt succeeds iff the list request succeeded, it returned `amount` pods, and every pod is running in the sense of `is_pod_running` (k8s.rs:211-218: a status is present, its phase is present, and the phase equals `Running`; a missing status or phase is not running); a success returns that list; a failure is the API error or "Pods are not ready" |
| SeedDiscovery.RetrySeedPods | node/tools/src/k8s.rs:184-186 | between 1 and 16 attempts; every attempt before the last one failed; the result is the last attempt's outcome, so polling stops at the first success; a failure means all 16 attempts were made; success iff some attempt within the first 16 succeeds |
| SeedDiscovery.AddressMapUpToKeys | node/tools/src/k8s.rs:188-197 | after inserting a prefix of the pods, the map's keys are exactly those pods' `id` labels |
| SeedDiscovery.AddressMapUpToValues | node/tools/src/k8s.rs:188-197 | after inserting a prefix of the pods, every id maps to the pod IP of the last pod carrying it |
| SeedDiscovery.AddressMapUpToSize | node/tools/src/k8s.rs:188-197 | the map has at most one entry per pod, and exactly one per pod when the ids are distinct |
| SeedDiscovery.CollectUpToSuccess | node/tools/src/k8s.rs:188-197 | the loop over the first n pods succeeds iff each of them has a status with a pod IP, and then its map is the id → address fold of those pods |
| SeedDiscovery.CollectUpToFailure | node/tools/src/k8s.rs:188-197 | the first pod without a pod IP decides the outcome, whatever follows it: "Status not present" if it has no status, "Pod IP address not present" otherwise, and no partial map |
| SeedDiscovery.CollectSeedAddrs | node/tools/src/k8s.rs:188-197 | the loop's outcome is the step-by-step reference fold over the whole list (stop at the first pod without an IP, otherwise insert IP under id); it succeeds iff every pod has a status with a pod IP |
| SeedDiscovery.CollectedSeedAddrs | node/tools/src/k8s.rs:188-197 | over a whole pod list: success iff every pod has a pod IP; otherwise the first pod lacking one decides the error; on success the keys are the ids, each id maps to the IP of its last pod, and the size is at most the pod count (equal when the ids are distinct) |
| SeedDiscovery.GetSeedNodeAddrs | node/tools/src/k8s.rs:176-199 | the retry bounds and early exit as above; when polling fails, the last attempt's error is returned; when it succeeds, the map exists iff every pod of the first ready list has a pod IP, and otherwise the first pod lacking one decides the error ("Status not present" or "Pod IP address not present"); a map returned is the id → IP map of that list; it has at most `amount` entries, and exactly `amount` when the ids are distinct |
| NamespaceProvisioner.NamespaceLabels | node/tools/src/k8s.rs:37 | a new namespace carries exactly one label, `name=<name>` |
| NamespaceProvisioner.CreateOrReuseNamespace | node/tools/src/k8s.rs:30-66 | afterwards the namespace exists; a present namespace leaves the cluster unchanged with no create; an absent one is created once with its `name` label; no other namespace changes |
| NamespaceProvisioner.CreateOrReuseIdempotent | node/tools/src/k8s.rs:30-66 | a second call with the same name issues no create and changes nothing; two calls create exactly once if the namespace was absent, never if it was present |
| NamespaceProvisioner.CreateOrReuseCommutes | node/tools/src/k8s.rs:30-66 | provisioning two namespaces in either order gives the same cluster |
| Bootstrap.SeedFilterSelectsSeedNodes | node/tools/src/k8s.rs:202 | the `seed=true` list filter matches a node's pod labels iff the node was deployed as a seed |
| Bootstrap.SeedFilterOnPodLabels | node/tools/src/k8s.rs:202 | the `seed=true` filter matches the pod labels of a node iff its seed label is set |
| Bootstrap.DistinctIndicesGiveDistinctIds | node/tools/src/k8s.rs:78 | pods whose ids are the names of pairwise distinct indices have pairwise distinct ids |
| Bootstrap.SeedMapComplete | node/tools/src/k8s.rs:188-198 | for seed pods of distinct nodes that all have IPs, the map has one entry per pod, keyed by its node name and holding its IP |

## Left out

- `get_client` and the Kubernetes API calls (`get_opt`, `create`, `list`) are network I/O. They are replaced by a namespace map and a sequence of list observations. A failed list request is the `ListFailed` observation.
- Submitting the deployment (`deployments.create`, k8s.rs:161-172) is I/O. The model stops at the `Deployment` value.
- NamespaceProvisioner.CreateOrReuseNamespace: failures of `get_opt` and `create` are not modelled, because the cluster map answers every lookup. The "Name not defined in metadata" checks are left out too, because the modelled objects always carry their name.
- SeedDiscovery.GetSeedNodeAddrs: in the source, a listed pod without an `id` label panics. The model instead requires every list that passes the readiness check to carry `id` labels.
- SeedDiscovery.RetrySeedPods: the 1000 ms sleeps between attempts are not modelled (only the attempt count and early exit). It assumes `tokio_retry` makes one attempt, plus one more per strategy delay.
- The peer serializer (`config::encode_with_serializer`), `NodeAddr` and `config::NODES_PORT` are defined outside `k8s.rs`. The serializer is a function parameter, the port is a `u16` parameter, and `NodeAddr` is an opaque pair of id and address. The serializer's own round trip is an assumption (`CliArgs.RoundTrips`), not a proved fact.
- `info!` logging, and every `Deployment` field left at its default by `..Default::default()`, are not modelled.
- The caller that orders these steps (seeds first, then discovery, then the other nodes) lives outside `k8s.rs` and is not part of this model.
- The node index is a `usize` in the source. The model takes any `nat`, because the formatting never wraps or truncates.
