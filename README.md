# ecscale scale-in engine, in Dafny

This project models the decision core of `ecscale.py`. That script runs periodically and shrinks
Amazon ECS clusters. For every managed cluster (each listed cluster whose ARN does not contain
`awseb`) it takes a snapshot: the memory reservation, the active container instances (hosts), the
idle hosts (no running and no pending task) and the hosts already in the DRAINING state. It then
applies three rules:

- **Future-reservation gate.** The current reservation `M` and the projected
  reservation `M * n / (n - 1)` must both be below 70. The projection is the
  sentinel 100 when the cluster has fewer than two hosts.
- **Inside the gate.**
  - Every idle host is drained.
  - If, in addition, `M < 60` and the CPU average is below 30, the scale-in
    candidate is meant to be drained. The candidate is the host with the most
    free memory, with fewer running tasks breaking ties. As the script is
    written, the CPU lookup fails before the candidate is chosen (see
    "Left out"). The model describes the intended rule, with the CPU average
    as an input.
- **Termination sweep.** Whatever the metrics, every draining host without
  running or pending tasks is terminated, and its auto-scaling group's desired
  capacity is decremented.

A dry run decides the same things but calls nothing.

Modules, following the script's structure:

- `Records` holds the constants (30, 60, 70, `"awseb"`) and the records the cloud services return.
- `Text` models Python's `in`, `split` and `join` on strings.
- `Inventory` models `clusters`, the cluster name taken from an ARN, `find_asg` and `asg_scaleable`.
- `Snapshot` models `empty_instances`, `draining_instances` and `running_tasks`.
- `Selection` models `scale_in_instance`.
- `Rules` models `future_reservation` and the rule block as a function from a snapshot to a `Decision`.
- `Lifecycle` models `retrieve_cluster_data` and `main`.
  - The loops of `main` are imperative methods.
  - Their side effects are recorded on a `Mutator` object, which stands for `drain_instance` and
    `terminate_decrease`.
- `Scenarios` works through a few concrete clusters.

Where the code is easy to misread:

- **`scale_in_instance` (lines 119-135).**
  - The `elif` at line 128 belongs to the `>` test at line 122. So equal free memory with fewer
    running tasks replaces the candidate.
  - The `break` at line 135 is inside the `if res['name'] == 'MEMORY'` branch. So the inner loop
    skips other resources and stops at the host's first `MEMORY` entry, and each host is judged by
    that entry only.
  - A full tie keeps the host seen first.
  - The record starts at free memory 0. So a cluster whose hosts all report at most 0 free memory
    yields no candidate.
- **The idle drain is nested in the gate (lines 239-249).** It is not unconditional.
- **Clusters without an active host are skipped entirely.** `retrieve_cluster_data` returns
  `False` (line 198) and the loop `continue`s (line 231). So such a cluster gets no termination
  sweep either.
- **Duplicate drains are possible.** The candidate drain is not checked against the idle drains
  already issued in the same pass. So one host can be drained twice.
  `IdleCandidateDrainedTwice` shows that the calls of such a pass hold that drain twice, and
  `ClusterCallsMatchDecision` counts both.
- **Drained ids that are not found count as empty.** `not running_tasks(...)` is true both for a
  count of 0 and for an id that is not found (`None`). `DrainingIdsAreFound` shows that the second
  case cannot arise with a snapshot built the way `retrieve_cluster_data` builds it.

## Model

| member | source | states |
|---|---|---|
| Rules.FutureReservation | ecscale.py:164-175 | with n > 1 hosts the projection times (n - 1) equals the reservation times n; with at most one host it is 100 |
| Rules.FutureGateByCrossMultiplying | ecscale.py:239-240 | with two or more hosts the projected test `F < 70` holds exactly when `M * n < 70 * (n - 1)` |
| Rules.FutureReservationIsConservative | ecscale.py:164-175 | for a non-negative reservation and two or more hosts the projection is at least the current reservation |
| Rules.ScaleInGate | ecscale.py:239-240 | the gate: the reservation and its projection both below 70; `FutureGateByCrossMultiplying` restates the projected test without division |
| Rules.Decide | ecscale.py:239-274 | the rule block for one cluster as a decision: its idle drains, candidate drain and terminations; the lemmas below state each part |
| Rules.IdleDrains | ecscale.py:239-249 | the ARNs drained as idle; `IdleDrainsAreIdleHosts` states them |
| Rules.CandidateDrain | ecscale.py:250-262 | the candidate drained under the gate, low reservation and low CPU; `CandidateDrainIsFirstBest` and `HighCpuNoCandidate` state it |
| Rules.Terminations | ecscale.py:264-274 | the ids terminated; `TerminationsAreEmptyDrainingHosts` and `TerminationsIgnoreMetrics` state them |
| Rules.IdleDrainsAreIdleHosts | ecscale.py:239-249 | outside the gate nothing is drained as idle; inside it, the idle drains are exactly the ARNs of the idle hosts, each the last one recorded for its id |
| Rules.CandidateDrainIsFirstBest | ecscale.py:250-262 | a candidate drain is decided iff gate, `M < 60`, `cpu < 30` all hold and some host offers positive free memory; it is then the ARN of the first best host |
| Rules.HighCpuNoCandidate | ecscale.py:253-261 | CPU at or above 30 gives no candidate drain |
| Rules.SingleHostNeverDrains | ecscale.py:167-171 | a cluster with at most one host has no idle drain and no candidate drain |
| Rules.TerminationsAreEmptyDrainingHosts | ecscale.py:264-274 | an id is terminated iff the first draining host with that id has no running and no pending task |
| Rules.TerminationsIgnoreMetrics | ecscale.py:264-274 | the set of terminations does not depend on the reservation or the CPU value |
| Selection.FirstMemory | ecscale.py:120-135 | the value of a host's first `MEMORY` entry, none without one (the inner loop's `break`); `Step` and `SelectMaximum` state how it is used |
| Selection.Step | ecscale.py:120-135 | one host's iteration never lowers the free memory; it replaces all four fields together exactly when the host's first MEMORY value beats the record; otherwise the record is unchanged |
| Selection.Select | ecscale.py:118-135 | the record after the outer loop over the hosts in order; `SelectIsFirstBest` and `SelectMaximum` state what it is |
| Selection.SelectIsFirstBest | ecscale.py:118-135 | after the pass no examined host beats the record, and the record is the initial one or names the first best host |
| Selection.FirstBestUnique | ecscale.py:118-135 | at most one host is the first best one |
| Selection.SelectMaximum | ecscale.py:118-135 | the final free memory is the maximum of 0 and every host's first MEMORY value; no ARN is recorded iff no host offers positive free memory, and then the record is the initial one |
| Selection.ScaleInInstance | ecscale.py:114-138 | the nested loop with its `break` computes `Select`, ends unbeaten and names the first best host unless no host offered positive free memory |
| Snapshot.EmptyInstances | ecscale.py:77-86 | the map's keys are exactly the ids of idle hosts, and each maps to the ARN of the last idle host with that id |
| Snapshot.DrainingInstances | ecscale.py:89-97 | the map's keys are exactly the ids of draining hosts, and each maps to the ARN of the last host with that id |
| Snapshot.Collect | ecscale.py:82-95 | the dictionary built by `update` per kept instance, in list order; `CollectSpec` and `CollectValues` state its keys and values |
| Snapshot.CollectSpec | ecscale.py:82-84 | building a map entry by entry: keys are the ids of kept instances, and the last write for an id wins |
| Snapshot.CollectValues | ecscale.py:82-84 | every value of the built map is the ARN of the last kept instance with its key |
| Snapshot.RunningTasks | ecscale.py:141-149 | `running_tasks`: running plus pending count of the first host with the id, none when no host has it; `RunningTasksSpec` states this |
| Snapshot.RunningTasksSpec | ecscale.py:141-148 | the lookup fails iff no host has the id; otherwise it is the running plus pending count of the first host with the id |
| Snapshot.DrainingIdsAreFound | ecscale.py:264-267 | every key of the draining map is found by `running_tasks` in the list the map was built from |
| Inventory.Clusters | ecscale.py:13-20 | the kept ARNs are exactly the listed ones that do not contain `awseb`, and there are no more of them than were listed |
| Inventory.ClustersAppend | ecscale.py:13-20 | the managed clusters of two listings joined are those of the first followed by those of the second, so order and repeats are kept |
| Inventory.ClustersSingle | ecscale.py:20 | a single listed ARN is managed exactly when it does not contain `awseb` |
| Inventory.ClustersKeepsAll | ecscale.py:20 | a list without any `awseb` ARN is kept whole and in order |
| Inventory.ClusterName | ecscale.py:189 | there is no name iff the ARN has no `/`; a name contains no `/` |
| Inventory.ClusterNameOfJoin | ecscale.py:189 | for an ARN made of `/`-free parts, the name is its second part |
| Inventory.FindTag | ecscale.py:49-52 | one group's tag loop: the ResourceId of the first `Name` tag whose first token is the cluster name, if any; `FindTagSpec` states this |
| Inventory.FindTagSpec | ecscale.py:49-52 | no result iff no `Name` tag's first token is the cluster name; otherwise the ResourceId of the first such tag |
| Inventory.FirstMatchUnique | ecscale.py:48-52 | the first matching group and tag are unique |
| Inventory.FindAsg | ecscale.py:46-55 | `find_asg` over the groups in order, tags in order, no result when nothing matches; `FindAsgSpec` states this |
| Inventory.FindAsgSpec | ecscale.py:46-55 | no result iff no group has a matching tag; otherwise the ResourceId of the first matching tag of the first matching group |
| Inventory.FirstGroupNamed | ecscale.py:180-181 | no index iff no group has the name; otherwise the first index with that name |
| Inventory.AsgScaleable | ecscale.py:178-185 | `asg_scaleable`: the MinSize/DesiredCapacity test on the group the cluster's tag names, false when there is none; `AsgScaleableSpec` and `NoGroupNotScaleable` state this |
| Inventory.AsgScaleableSpec | ecscale.py:178-185 | scaleable iff a matching tag is found, the first group named by its ResourceId exists and its MinSize is below its DesiredCapacity |
| Inventory.NoGroupNotScaleable | ecscale.py:183-185 | when no data matches, the group is reported as not scaleable |
| Text.Contains | ecscale.py:20 | Python's `t in s` on strings; `ContainsIsSubstring` states that it is the substring test |
| Text.ContainsIsSubstring | ecscale.py:20 | `t in s` holds iff `t` occurs in `s` at some index |
| Text.IndexOf | ecscale.py:189 | no index iff the character is absent; otherwise its first position |
| Text.Split | ecscale.py:189 | Python's `s.split(c)`: never an empty list; `SplitPiecesOmitSeparator`, `JoinSplit` and `SplitJoin` state that it cuts at every separator |
| Text.SplitPiecesOmitSeparator | ecscale.py:189 | no piece of a split contains the separator |
| Text.JoinSplit | ecscale.py:189 | joining the pieces of a split with the same separator gives back the string |
| Text.SplitJoin | ecscale.py:189 | splitting a join of separator-free pieces gives back the pieces |
| Text.FirstToken | ecscale.py:51 | `s.split(' ')[0]`; `FirstTokenIsLongestPrefix` states what it is |
| Text.FirstTokenIsLongestPrefix | ecscale.py:51 | `s.split(' ')[0]` is a prefix of `s` without a space, followed by a space or the end of `s` |
| Lifecycle.Mutator.constructor | ecscale.py:221-223 | a client starts with an empty call log |
| Lifecycle.Mutator.DrainInstance | ecscale.py:151-161 | appends exactly one drain call for the ARN and cluster |
| Lifecycle.Mutator.TerminateDecrease | ecscale.py:100-111 | appends exactly one terminate-and-decrement call for the instance id |
| Lifecycle.SnapshotOf | ecscale.py:188-217 | the snapshot `retrieve_cluster_data` builds for a cluster with an active host; `RetrieveClusterData` is proved to return it |
| Lifecycle.RetrieveClusterData | ecscale.py:188-217 | no snapshot iff there is no active host; otherwise the snapshot whose two maps are the ones built from the two host lists |
| Lifecycle.DrainIdle | ecscale.py:242-249 | returns the ARNs of the map; a dry run calls nothing; a normal run only appends, and appends exactly one drain per entry of the map, for that entry's ARN (`DrainBag`) |
| Lifecycle.DrainBagRemove | ecscale.py:244-249 | the drains of the entries do not depend on the order the entries are visited in: any entry can be taken first |
| Lifecycle.DrainBagSize | ecscale.py:244-249 | one drain per entry: as many drains as entries |
| Lifecycle.DrainBagElements | ecscale.py:244-249 | the distinct drains are those of the entries' ARNs |
| Lifecycle.TerminateDrained | ecscale.py:264-274 | returns the draining ids without tasks; a dry run calls nothing; a normal run only appends, and appends exactly one termination per such id |
| Lifecycle.TerminateCallsCount | ecscale.py:264-274 | one termination call per terminated id |
| Lifecycle.DrainForScaleIn | ecscale.py:239-261 | returns the idle drains and the candidate drain of the rules; a normal run appends exactly one drain per idle entry under the gate plus one for the candidate, with their multiplicity |
| Lifecycle.ApplyRules | ecscale.py:239-274 | the decision is `Decide` of the snapshot, the same in both modes; a dry run calls nothing; a normal run appends exactly the calls of `ClusterCalls`: the idle drains, the candidate drain and one termination per terminated id, with their multiplicity |
| Lifecycle.ClusterCallsMatchDecision | ecscale.py:239-274 | the calls a cluster's rule block makes are exactly those its decision stands for; their number is the idle entries under the gate, plus one for a candidate, plus the terminations |
| Lifecycle.IdleBagElements | ecscale.py:239-249 | the distinct idle drains made are the drains of the decision's idle ARNs |
| Lifecycle.IdleCandidateDrainedTwice | ecscale.py:244-259 | an idle host that is also the candidate is drained twice in the same pass |
| Lifecycle.DecisionFor | ecscale.py:229-274 | one iteration's decision: none without an active host, otherwise `Decide` of the cluster's snapshot; `ScaleInCluster` is proved against it |
| Lifecycle.Decisions | ecscale.py:227-276 | the decisions of one pass over the managed clusters, in order, skipping clusters without an active host; `DecisionsAreForManagedClusters` and `ActiveClustersAreDecided` state which they are |
| Lifecycle.DecisionsAreForManagedClusters | ecscale.py:227-237 | every decision of a pass belongs to a managed cluster with an active host and is that cluster's own decision |
| Lifecycle.ActiveClusterDecided | ecscale.py:227-237 | a managed cluster with an active host has its decision among those of the pass |
| Lifecycle.ActiveClustersAreDecided | ecscale.py:227-237 | every managed cluster with an active host has its decision among those of the pass (the converse of `DecisionsAreForManagedClusters`) |
| Lifecycle.PassCallsOfDecisions | ecscale.py:227-276 | a call is made in a normal pass iff some decision of the pass stands for it |
| Lifecycle.PassCallsWithin | ecscale.py:227-276 | every drain of a pass is addressed to one of its managed clusters |
| Lifecycle.ScaleInCluster | ecscale.py:229-274 | the decision is `DecisionFor` the cluster (none iff no active host); a dry run calls nothing; a normal run only appends, and appends exactly that cluster's calls (`CallsFor`), with their multiplicity |
| Lifecycle.ScaleInClusters | ecscale.py:227-276 | the decisions are those of the clusters in order, the same in both modes; a dry run calls nothing; a normal run only appends, and appends exactly the sum of every cluster's calls (`PassCalls`) |
| Lifecycle.ScaleIn | ecscale.py:220-276 | the same over the managed clusters of the listing: the decisions of `Decisions(Clusters(...))`, and in a normal run the calls of `PassCalls` over them |
| Lifecycle.CallsOfOwnCluster | ecscale.py:249-259 | every drain a cluster's decision stands for is addressed to that cluster |
| Scenarios.ProjectionOfFiveHosts | ecscale.py:164-175 | reservation 60 on five hosts projects to 75 |
| Scenarios.TieOnMemoryFewerTasksWins | ecscale.py:128-134 | equal free memory: the later host with fewer running tasks wins |
| Scenarios.MoreMemoryWins | ecscale.py:122-126 | more free memory wins over fewer running tasks |
| Scenarios.FullTieKeepsFirst | ecscale.py:128-130 | a full tie keeps the host seen first |
| Scenarios.IdleDrainIsGated | ecscale.py:239-249 | reservation 55 on four hosts, one of them idle, CPU 20: the projection is above 70, so neither the idle host nor a candidate is drained and nothing is terminated |
| Scenarios.BatchClusterDrainsLeastUtilised | ecscale.py:250-259 | reservation 40, CPU 25 on five busy hosts: the first of the two hosts with most free memory, the one with fewer running tasks, is the candidate |
| Scenarios.OnlyEmptyDrainingHostTerminated | ecscale.py:264-274 | of two draining hosts only the one without tasks is terminated |

## Left out

- The AWS API calls (boto3) are left out. Their results are inputs to the model.
  - Which clusters are listed, the hosts described in each state, and the
    reservation and CPU metrics form an `Observation` per cluster.
  - `drain_instance` and `terminate_decrease` become appends to the `Mutator` call log.
  - Pagination, network failures and the `try`/`except` blocks that print and
    carry on are not modelled.
- Absent metrics are left out. When `cluster_memory_reservation` finds no
  datapoint it returns `None`. The model takes the reservation and the CPU
  average as real numbers that are always present. The Python 2 ordering of
  `None` against numbers, and the `TypeError` that `None * n` would raise at
  line 169, are not modelled.
- Rules.CandidateDrain: models the intended candidate rule, with the CPU average
  as an input, not the code as written. As written, `ec2_avg_cpu_utilization`
  passes the autoscaling client, not the result of `describe_auto_scaling_groups`,
  to `find_asg` (lines 59 and 253). Line 48 then subscripts the client, which
  raises `TypeError`, and nothing catches it. So whenever the gate is open and
  `M < 60`:
  - no candidate is ever drained;
  - the invocation ends after that cluster's idle drains;
  - that cluster's termination sweep and every later cluster are skipped.
  The `KeyError` that the lookup of `['containerInstanceArn']` at line 254 would
  raise when no host offers positive free memory is therefore unreachable. The
  model decides no candidate drain in that case and carries on. `find_asg` is
  modelled on its own.
- `asg_scaleable` is modelled, but `main` in this file never calls it. So
  terminations are not checked against MinSize.
- Lifecycle.ScaleIn: requires every managed ARN to contain a `/`. The source's
  `cluster.split('/')[1]` at line 189 would raise `IndexError` otherwise.
  Lifecycle.ScaleInCluster and Lifecycle.RetrieveClusterData have the same
  requirement.
- The `exit` at line 18 is a bare name, not a call. So an empty cluster list
  only prints; the model returns the empty list.
- The printed messages, `lambda_handler`, the command-line option parsing and
  the timestamps of the metric queries are left out.
- Floating point is modelled as exact real arithmetic, and the source's integer
  constants as the equal reals.
- Dictionary iteration order (`iteritems`) is not modelled: the loops pick the
  next key nondeterministically. The contracts hold for every order. About the call log they state the multiset of calls made
  (each call with its multiplicity), not their order.
