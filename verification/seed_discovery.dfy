/** `get_seed_node_addrs`: poll the seed pods until the expected number are
    running, then map each seed's `id` label to its pod IP. The platform is
    replaced by the sequence of answers its list calls return. */
module SeedDiscovery {
  import opened Wrappers
  import opened Labels

  /** `FixedInterval::from_millis(1000).take(15)` yields 15 delays. */
  const MaxRetries: nat := 15
  /** `Retry::spawn` tries once, then once more after each delay. */
  const MaxAttempts: nat := MaxRetries + 1
  const RetryIntervalMillis: nat := 1000
  const RunningPhase: string := "Running"
  /** The label filter of the list call (`seed=true`). */
  const SeedSelector: LabelMap := map["seed" := "true"]

  datatype PodStatus = PodStatus(phase: Option<string>, podIP: Option<string>)

  datatype Pod = Pod(labels: LabelMap, status: Option<PodStatus>)

  /** The answer to one list call: the matching pods, or a failed request. */
  datatype Observation = Listed(pods: seq<Pod>) | ListFailed

  datatype Error =
    | ApiError          // the list request itself failed
    | PodsNotReady      // "Pods are not ready"
    | StatusNotPresent  // "Status not present"
    | PodIpNotPresent   // "Pod IP address not present"

  /** `is_pod_running`: a pod without a status or without a phase is not
      running. */
  predicate IsPodRunning(p: Pod)
  {
    match p.status
    case None => false
    case Some(status) =>
      match status.phase
      case None => false
      case Some(phase) => phase == RunningPhase
  }

  /** `get_seed_pods`: one attempt succeeds exactly when the list request
      succeeded, it holds `amount` pods, and every one of them is running. */
  function TryListSeedPods(obs: Observation, amount: nat): (r: Result<seq<Pod>, Error>)
    ensures r.Success? <==>
      && obs.Listed?
      && |obs.pods| == amount
      && forall k :: 0 <= k < |obs.pods| ==>
           obs.pods[k].status.Some? && obs.pods[k].status.value.phase == Some(RunningPhase)
    ensures r.Success? ==> r.value == obs.pods
    ensures r.Failure? ==> r.error == if obs.ListFailed? then ApiError else PodsNotReady
  {
    match obs
    case ListFailed => Failure(ApiError)
    case Listed(pods) =>
      if |pods| == amount && forall k :: 0 <= k < |pods| ==> IsPodRunning(pods[k])
      then Success(pods)
      else Failure(PodsNotReady)
  }

  /** `Retry::spawn(retry_strategy, || get_seed_pods(..))`: attempt `k`
      sees `observations[k]`; the first success ends the loop, and after
      the last attempt the last attempt's error is returned. */
  method RetrySeedPods(observations: seq<Observation>, amount: nat)
    returns (r: Result<seq<Pod>, Error>, attempts: nat)
    requires MaxAttempts <= |observations|
    ensures 1 <= attempts <= MaxAttempts
    ensures forall k :: 0 <= k < attempts - 1 ==> TryListSeedPods(observations[k], amount).Failure?
    ensures r == TryListSeedPods(observations[attempts - 1], amount)
    ensures r.Failure? ==> attempts == MaxAttempts
    ensures r.Success? <==> exists k :: 0 <= k < MaxAttempts && TryListSeedPods(observations[k], amount).Success?
  {
    attempts := 1;
    r := TryListSeedPods(observations[0], amount);
    while r.Failure? && attempts < MaxAttempts
      invariant 1 <= attempts <= MaxAttempts
      invariant forall k :: 0 <= k < attempts - 1 ==> TryListSeedPods(observations[k], amount).Failure?
      invariant r == TryListSeedPods(observations[attempts - 1], amount)
    {
      r := TryListSeedPods(observations[attempts], amount);
      attempts := attempts + 1;
    }
  }

  predicate HasId(p: Pod)
  {
    "id" in p.labels
  }

  predicate AllHaveId(pods: seq<Pod>)
  {
    forall k :: 0 <= k < |pods| ==> HasId(pods[k])
  }

  function IdOf(p: Pod): string
    requires HasId(p)
  {
    p.labels["id"]
  }

  predicate HasAddress(p: Pod)
  {
    p.status.Some? && p.status.value.podIP.Some?
  }

  function AddressOf(p: Pod): string
    requires HasAddress(p)
  {
    p.status.value.podIP.value
  }

  /** No later pod among the first `n` carries the `id` of pod `i`. */
  predicate LastWithIdIn(pods: seq<Pod>, i: nat, n: nat)
    requires AllHaveId(pods) && i < n <= |pods|
  {
    forall j :: i < j < n ==> IdOf(pods[j]) != IdOf(pods[i])
  }

  predicate DistinctIds(pods: seq<Pod>)
    requires AllHaveId(pods)
  {
    forall i, j :: 0 <= i < j < |pods| ==> IdOf(pods[i]) != IdOf(pods[j])
  }

  /** The keys of `m` are exactly the ids of the first `n` pods. */
  ghost predicate KeysUpTo(pods: seq<Pod>, n: nat, m: map<string, string>)
    requires AllHaveId(pods) && n <= |pods|
  {
    forall key :: key in m <==> exists k :: 0 <= k < n && IdOf(pods[k]) == key
  }

  /** Among the first `n` pods, each id maps to its last pod's address. */
  ghost predicate ValuesUpTo(pods: seq<Pod>, n: nat, m: map<string, string>)
    requires AllHaveId(pods) && n <= |pods|
    requires forall k :: 0 <= k < n ==> HasAddress(pods[k])
  {
    forall k :: 0 <= k < n && LastWithIdIn(pods, k, n) ==>
      IdOf(pods[k]) in m && m[IdOf(pods[k])] == AddressOf(pods[k])
  }

  /** `m` is the id -> address map of `pods`: its keys are exactly their ids,
      and each id maps to the address of the last pod carrying it. */
  ghost predicate IsAddressMap(pods: seq<Pod>, m: map<string, string>)
    requires AllHaveId(pods)
    requires forall k :: 0 <= k < |pods| ==> HasAddress(pods[k])
  {
    KeysUpTo(pods, |pods|, m) && ValuesUpTo(pods, |pods|, m)
  }

  /** Inserting pod `n` adds exactly its id to the keys. */
  lemma KeysStep(pods: seq<Pod>, n: nat, m: map<string, string>, a: string)
    requires AllHaveId(pods) && n < |pods|
    requires KeysUpTo(pods, n, m)
    ensures KeysUpTo(pods, n + 1, m[IdOf(pods[n]) := a])
  {
  }

  /** With distinct ids, pod `n`'s id is not yet a key after `n` pods. */
  lemma FreshIdWhenDistinct(pods: seq<Pod>, n: nat, m: map<string, string>)
    requires AllHaveId(pods) && n < |pods|
    requires DistinctIds(pods)
    requires KeysUpTo(pods, n, m)
    ensures IdOf(pods[n]) !in m
  {
  }

  /** The map the loop has built after inserting the first `n` pods, in
      order, so that a later pod overwrites an earlier one with its id. */
  function AddressMapUpTo(pods: seq<Pod>, n: nat): map<string, string>
    requires AllHaveId(pods) && n <= |pods|
    requires forall k :: 0 <= k < n ==> HasAddress(pods[k])
  {
    if n == 0 then map[]
    else AddressMapUpTo(pods, n - 1)[IdOf(pods[n - 1]) := AddressOf(pods[n - 1])]
  }

  /** The fold's keys are the ids of the pods it has seen. */
  lemma {:induction false} AddressMapUpToKeys(pods: seq<Pod>, n: nat)
    requires AllHaveId(pods) && n <= |pods|
    requires forall k :: 0 <= k < n ==> HasAddress(pods[k])
    ensures KeysUpTo(pods, n, AddressMapUpTo(pods, n))
  {
    if n > 0 {
      AddressMapUpToKeys(pods, n - 1);
      KeysStep(pods, n - 1, AddressMapUpTo(pods, n - 1), AddressOf(pods[n - 1]));
    }
  }

  /** The fold maps each id to the address of the last pod seen with it. */
  lemma {:induction false} AddressMapUpToValues(pods: seq<Pod>, n: nat)
    requires AllHaveId(pods) && n <= |pods|
    requires forall k :: 0 <= k < n ==> HasAddress(pods[k])
    ensures ValuesUpTo(pods, n, AddressMapUpTo(pods, n))
  {
    if n > 0 {
      AddressMapUpToValues(pods, n - 1);
      var m := AddressMapUpTo(pods, n - 1);
      var m' := AddressMapUpTo(pods, n);
      forall k | 0 <= k < n && LastWithIdIn(pods, k, n)
        ensures IdOf(pods[k]) in m' && m'[IdOf(pods[k])] == AddressOf(pods[k])
      {
        if k < n - 1 {
          assert IdOf(pods[n - 1]) != IdOf(pods[k]);
          assert LastWithIdIn(pods, k, n - 1);
        }
      }
    }
  }

  /** One entry per pod at most, and exactly one per pod when ids are
      distinct. */
  lemma {:induction false} AddressMapUpToSize(pods: seq<Pod>, n: nat)
    requires AllHaveId(pods) && n <= |pods|
    requires forall k :: 0 <= k < n ==> HasAddress(pods[k])
    ensures |AddressMapUpTo(pods, n)| <= n
    ensures DistinctIds(pods) ==> |AddressMapUpTo(pods, n)| == n
  {
    if n > 0 {
      var m := AddressMapUpTo(pods, n - 1);
      AddressMapUpToSize(pods, n - 1);
      if DistinctIds(pods) {
        AddressMapUpToKeys(pods, n - 1);
        FreshIdWhenDistinct(pods, n - 1, m);
      }
    }
  }

  /** The outcome of the source loop after its first `n` pods: the first pod
      without a status or a pod IP fails the whole call, otherwise each pod's
      address is inserted under its id. */
  function CollectUpTo(pods: seq<Pod>, n: nat): Result<map<string, string>, Error>
    requires AllHaveId(pods) && n <= |pods|
  {
    if n == 0 then Success(map[])
    else
      match CollectUpTo(pods, n - 1)
      case Failure(e) => Failure(e)
      case Success(m) =>
        var p := pods[n - 1];
        if p.status.None? then Failure(StatusNotPresent)
        else if p.status.value.podIP.None? then Failure(PodIpNotPresent)
        else Success(m[IdOf(p) := p.status.value.podIP.value])
  }

  /** The loop succeeds exactly when every pod seen has a pod IP, and then
      it has built the id -> address fold of those pods. */
  lemma {:induction false} CollectUpToSuccess(pods: seq<Pod>, n: nat)
    requires AllHaveId(pods) && n <= |pods|
    ensures CollectUpTo(pods, n).Success? <==> forall k :: 0 <= k < n ==> HasAddress(pods[k])
    ensures CollectUpTo(pods, n).Success? ==> CollectUpTo(pods, n).value == AddressMapUpTo(pods, n)
  {
    if n > 0 {
      CollectUpToSuccess(pods, n - 1);
    }
  }

  /** The first pod without a pod IP decides the error, whatever follows it:
      "Status not present" when it has no status at all, "Pod IP address not
      present" otherwise; no partial map is returned. */
  lemma {:induction false} CollectUpToFailure(pods: seq<Pod>, n: nat, i: nat)
    requires AllHaveId(pods) && i < n <= |pods|
    requires !HasAddress(pods[i])
    requires forall k :: 0 <= k < i ==> HasAddress(pods[k])
    ensures CollectUpTo(pods, n) == Failure(if pods[i].status.None? then StatusNotPresent else PodIpNotPresent)
  {
    if n == i + 1 {
      CollectUpToSuccess(pods, i);
    } else {
      CollectUpToFailure(pods, n - 1, i);
    }
  }

  /** The `for p in pod_list` loop of `get_seed_node_addrs`. */
  method CollectSeedAddrs(pods: seq<Pod>) returns (r: Result<map<string, string>, Error>)
    requires AllHaveId(pods)
    ensures r == CollectUpTo(pods, |pods|)
    ensures r.Success? <==> forall k :: 0 <= k < |pods| ==> HasAddress(pods[k])
  {
    var m: map<string, string> := map[];
    var i := 0;
    while i < |pods|
      invariant 0 <= i <= |pods|
      invariant forall k :: 0 <= k < i ==> HasAddress(pods[k])
      invariant CollectUpTo(pods, i) == Success(m)
    {
      var p := pods[i];
      var id := IdOf(p);
      if p.status.None? {
        CollectUpToFailure(pods, |pods|, i);
        return Failure(StatusNotPresent);
      }
      if p.status.value.podIP.None? {
        CollectUpToFailure(pods, |pods|, i);
        return Failure(PodIpNotPresent);
      }
      m := m[id := p.status.value.podIP.value];
      i := i + 1;
    }
    return Success(m);
  }

  /** What the loop computes over a whole pod list: success iff every pod
      has a pod IP, otherwise the first pod lacking one decides the error;
      on success the keys are the ids, each id maps to the last such pod's
      IP, and there is at most one entry per pod, exactly one when the ids
      are distinct. */
  lemma CollectedSeedAddrs(pods: seq<Pod>)
    requires AllHaveId(pods)
    ensures var r := CollectUpTo(pods, |pods|);
      && (r.Success? <==> forall k :: 0 <= k < |pods| ==> HasAddress(pods[k]))
      && (r.Failure? ==>
            exists i :: 0 <= i < |pods| && !HasAddress(pods[i])
              && (forall k :: 0 <= k < i ==> HasAddress(pods[k]))
              && r.error == (if pods[i].status.None? then StatusNotPresent else PodIpNotPresent))
      && (r.Success? ==> IsAddressMap(pods, r.value))
      && (r.Success? ==> |r.value| <= |pods|)
      && (r.Success? && DistinctIds(pods) ==> |r.value| == |pods|)
  {
    var r := CollectUpTo(pods, |pods|);
    CollectUpToSuccess(pods, |pods|);
    if r.Success? {
      AddressMapUpToKeys(pods, |pods|);
      AddressMapUpToValues(pods, |pods|);
      AddressMapUpToSize(pods, |pods|);
    } else {
      var i := FirstWithoutAddress(pods);
      CollectUpToFailure(pods, |pods|, i);
    }
  }

  /** The index of the first pod without a pod IP, when there is one. */
  function FirstWithoutAddress(pods: seq<Pod>): (i: nat)
    requires exists k :: 0 <= k < |pods| && !HasAddress(pods[k])
    ensures i < |pods| && !HasAddress(pods[i])
    ensures forall k :: 0 <= k < i ==> HasAddress(pods[k])
  {
    if !HasAddress(pods[0]) then 0
    else
      var i := FirstWithoutAddress(pods[1..]);
      assert forall k :: 1 <= k < |pods| ==> pods[k] == pods[1..][k - 1];
      i + 1
  }

  /** The whole of `get_seed_node_addrs`: on success the map covers the
      final pod list, has at most `amount` entries, and exactly `amount`
      when the seeds' ids are distinct. */
  method GetSeedNodeAddrs(observations: seq<Observation>, amount: nat)
    returns (r: Result<map<string, string>, Error>, attempts: nat)
    requires MaxAttempts <= |observations|
    requires forall k :: 0 <= k < |observations| && TryListSeedPods(observations[k], amount).Success? ==>
      AllHaveId(observations[k].pods)
    ensures 1 <= attempts <= MaxAttempts
    ensures forall k :: 0 <= k < attempts - 1 ==> TryListSeedPods(observations[k], amount).Failure?
    ensures TryListSeedPods(observations[attempts - 1], amount).Failure? ==>
      attempts == MaxAttempts && r == Failure(TryListSeedPods(observations[attempts - 1], amount).error)
    ensures TryListSeedPods(observations[attempts - 1], amount).Success? ==>
      var pods := observations[attempts - 1].pods;
      && r == CollectUpTo(pods, |pods|)
      && (r.Success? <==> forall k :: 0 <= k < |pods| ==> HasAddress(pods[k]))
      && (r.Failure? ==>
            var i := FirstWithoutAddress(pods);
            r.error == (if pods[i].status.None? then StatusNotPresent else PodIpNotPresent))
      && (r.Success? ==> IsAddressMap(pods, r.value))
      && (r.Success? && DistinctIds(pods) ==> |r.value| == amount)
    ensures r.Success? ==> |r.value| <= amount
  {
    var listed;
    listed, attempts := RetrySeedPods(observations, amount);
    if listed.Failure? {
      return Failure(listed.error), attempts;
    }
    r := CollectSeedAddrs(listed.value);
    CollectedSeedAddrs(listed.value);
  }
}
