/**
 * The main loop: for each managed cluster, build the snapshot, evaluate the
 * rules and, unless the run is a dry run, issue the drain and
 * terminate-and-decrement calls. The mutating calls are recorded in order on
 * a `Mutator` object instead of being sent to the cloud services.
 */
module Lifecycle {
  import opened Wrappers
  import opened Records
  import opened Text
  import opened Inventory
  import opened Snapshot
  import opened Selection
  import opened Rules

  datatype RunMode = Normal | Dry

  datatype Call =
    | DrainCall(containerInstanceArn: Arn, cluster: Arn)
    | TerminateDecreaseCall(instanceId: InstanceId)

  /** `drain_instance` and `terminate_decrease`, as the log of calls made to them. */
  class Mutator {
    var calls: seq<Call>

    constructor ()
      ensures calls == []
    {
      calls := [];
    }

    /** Put a container instance into the DRAINING state. */
    method DrainInstance(containerInstanceArn: Arn, cluster: Arn)
      modifies this
      ensures calls == old(calls) + [DrainCall(containerInstanceArn, cluster)]
    {
      calls := calls + [DrainCall(containerInstanceArn, cluster)];
    }

    /** Terminate a host and decrement its group's desired capacity. */
    method TerminateDecrease(instanceId: InstanceId)
      modifies this
      ensures calls == old(calls) + [TerminateDecreaseCall(instanceId)]
    {
      calls := calls + [TerminateDecreaseCall(instanceId)];
    }
  }

  /** What the cloud services report for one cluster during one pass. */
  datatype Observation = Observation(
    clusterMemReservation: real,
    activeContainerDescribed: seq<Instance>,
    drainingContainerDescribed: seq<Instance>,
    cpuUtilization: real)

  /** The snapshot `retrieve_cluster_data` builds from an observation. */
  function SnapshotOf(cluster: Arn, obs: Observation): ClusterData
    requires ClusterName(cluster).Some?
  {
    ClusterData(
      ClusterName(cluster).value,
      obs.clusterMemReservation,
      obs.activeContainerDescribed,
      Collect(obs.drainingContainerDescribed, false),
      Collect(obs.activeContainerDescribed, true),
      obs.drainingContainerDescribed)
  }

  /** `retrieve_cluster_data`: no snapshot (the source's `False`) when the cluster has no active host. */
  method RetrieveClusterData(cluster: Arn, obs: Observation) returns (r: Option<ClusterData>)
    requires ClusterName(cluster).Some?
    ensures r.None? <==> obs.activeContainerDescribed == []
    ensures r.Some? ==> r.value == SnapshotOf(cluster, obs) && Consistent(r.value)
  {
    var clusterName := ClusterName(cluster).value;
    if obs.activeContainerDescribed == [] {
      return None;
    }
    var drainingInstances := DrainingInstances(obs.drainingContainerDescribed);
    var emptyInstances := EmptyInstances(obs.activeContainerDescribed);
    r := Some(ClusterData(clusterName, obs.clusterMemReservation, obs.activeContainerDescribed,
                          drainingInstances, emptyInstances, obs.drainingContainerDescribed));
  }

  /** The distinct calls a decision stands for, in a normal run. */
  function CallsOf(d: Decision, cluster: Arn): set<Call>
  {
    DrainCalls(d.idleDrains, cluster)
    + CandidateCalls(d.candidateDrain, cluster)
    + TerminateCalls(d.terminations)
  }

  /** The calls appended to `calls` since it was `before`. */
  function Appended(before: seq<Call>, calls: seq<Call>): seq<Call>
    requires |before| <= |calls|
  {
    calls[|before|..]
  }

  /** The ARNs a map gives to the ids of `ks`. */
  function ArnsOf(m: map<InstanceId, Arn>, ks: set<InstanceId>): set<Arn>
    requires ks <= m.Keys
  {
    set k | k in ks :: m[k]
  }

  lemma ArnsOfAdd(m: map<InstanceId, Arn>, ks: set<InstanceId>, k: InstanceId)
    requires ks <= m.Keys && k in m
    ensures ArnsOf(m, ks + {k}) == ArnsOf(m, ks) + {m[k]}
  {
  }

  lemma ArnsOfAll(m: map<InstanceId, Arn>)
    ensures ArnsOf(m, m.Keys) == m.Values
  {
  }

  /** Drain calls, one per ARN, for `cluster`. */
  function DrainCalls(arns: set<Arn>, cluster: Arn): set<Call>
  {
    set a | a in arns :: DrainCall(a, cluster)
  }

  /** Termination calls, one per id. */
  function TerminateCalls(ids: set<InstanceId>): set<Call>
  {
    set t | t in ids :: TerminateDecreaseCall(t)
  }

  lemma TerminateCallsAdd(ids: set<InstanceId>, t: InstanceId)
    ensures TerminateCalls(ids + {t}) == TerminateCalls(ids) + {TerminateDecreaseCall(t)}
  {
  }

  /** The candidate drain as a set of calls. */
  function CandidateCalls(candidate: Option<Arn>, cluster: Arn): set<Call>
  {
    if candidate.Some? then {DrainCall(candidate.value, cluster)} else {}
  }

  /** An element of a non-empty set of ids, the same one for the same set. */
  ghost function Pick(s: set<InstanceId>): InstanceId
    requires s != {}
  {
    var x :| x in s; x
  }

  /** One drain call for each id of `ks`, for the ARN `m` gives it: repeated when ids share an ARN. */
  ghost function DrainBag(m: map<InstanceId, Arn>, ks: set<InstanceId>, cluster: Arn): multiset<Call>
    requires ks <= m.Keys
    decreases ks
  {
    if ks == {} then multiset{}
    else
      var k := Pick(ks);
      DrainBag(m, ks - {k}, cluster) + multiset{DrainCall(m[k], cluster)}
  }

  /** Any id of `ks` can be taken out of the bag first, whichever one `Pick` chooses. */
  lemma {:induction false} DrainBagRemove(m: map<InstanceId, Arn>, ks: set<InstanceId>, x: InstanceId, cluster: Arn)
    requires ks <= m.Keys && x in ks
    ensures DrainBag(m, ks, cluster) == DrainBag(m, ks - {x}, cluster) + multiset{DrainCall(m[x], cluster)}
    decreases ks
  {
    var k := Pick(ks);
    if k != x {
      DrainBagRemove(m, ks - {k}, x, cluster);
      DrainBagRemove(m, ks - {x}, k, cluster);
      assert ks - {k} - {x} == ks - {x} - {k};
    }
  }

  /** The bag holds one call per id. */
  lemma {:induction false} DrainBagSize(m: map<InstanceId, Arn>, ks: set<InstanceId>, cluster: Arn)
    requires ks <= m.Keys
    ensures |DrainBag(m, ks, cluster)| == |ks|
    decreases ks
  {
    if ks != {} {
      var k := Pick(ks);
      DrainBagSize(m, ks - {k}, cluster);
    }
  }

  /** The distinct calls of the bag are the drains of the ARNs of `ks`. */
  lemma {:induction false} DrainBagElements(m: map<InstanceId, Arn>, ks: set<InstanceId>, cluster: Arn)
    requires ks <= m.Keys
    ensures forall c :: c in DrainBag(m, ks, cluster) <==> c in DrainCalls(ArnsOf(m, ks), cluster)
    decreases ks
  {
    if ks != {} {
      var k := Pick(ks);
      DrainBagElements(m, ks - {k}, cluster);
      ArnsOfAdd(m, ks - {k}, k);
      assert ks - {k} + {k} == ks;
    }
  }

  /** The candidate drain as a bag of calls. */
  function CandidateBag(candidate: Option<Arn>, cluster: Arn): multiset<Call>
  {
    if candidate.Some? then multiset{DrainCall(candidate.value, cluster)} else multiset{}
  }

  /** The idle drains of the rule block as a bag: one per entry of `emptyInstances`, under the gate. */
  ghost function IdleBag(d: ClusterData, cluster: Arn): multiset<Call>
  {
    if ScaleInGate(d) then DrainBag(d.emptyInstances, d.emptyInstances.Keys, cluster) else multiset{}
  }

  /** Every call the rule block makes for one cluster in a normal run, with its multiplicity. */
  ghost function ClusterCalls(d: ClusterData, cpu: real, cluster: Arn): multiset<Call>
  {
    IdleBag(d, cluster) + CandidateBag(CandidateDrain(d, cpu), cluster)
    + multiset(TerminateCalls(Terminations(d)))
  }

  /** The distinct idle drains of the bag are the drains of the decision's idle ARNs. */
  lemma IdleBagElements(d: ClusterData, cluster: Arn)
    ensures forall c :: c in IdleBag(d, cluster) <==> c in DrainCalls(IdleDrains(d), cluster)
  {
    if ScaleInGate(d) {
      DrainBagElements(d.emptyInstances, d.emptyInstances.Keys, cluster);
      ArnsOfAll(d.emptyInstances);
    }
  }

  /**
   * The bag of calls holds exactly the calls the decision stands for; there is
   * one drain per idle entry, one for the candidate and one termination per id.
   */
  lemma ClusterCallsMatchDecision(d: ClusterData, cpu: real, cluster: Arn)
    ensures forall c :: c in ClusterCalls(d, cpu, cluster) <==> c in CallsOf(Decide(d, cpu), cluster)
    ensures |ClusterCalls(d, cpu, cluster)| ==
      (if ScaleInGate(d) then |d.emptyInstances| else 0)
      + (if CandidateDrain(d, cpu).Some? then 1 else 0)
      + |Terminations(d)|
  {
    var idle, cand, terms := IdleBag(d, cluster), CandidateBag(CandidateDrain(d, cpu), cluster),
                             multiset(TerminateCalls(Terminations(d)));
    assert ClusterCalls(d, cpu, cluster) == idle + cand + terms;
    IdleBagElements(d, cluster);
    forall c ensures c in idle + cand + terms <==> c in CallsOf(Decide(d, cpu), cluster) {
    }
    if ScaleInGate(d) {
      DrainBagSize(d.emptyInstances, d.emptyInstances.Keys, cluster);
    }
    TerminateCallsCount(Terminations(d));
  }

  /** One termination call per id. */
  lemma {:induction false} TerminateCallsCount(ids: set<InstanceId>)
    ensures |multiset(TerminateCalls(ids))| == |ids|
    decreases ids
  {
    if ids != {} {
      var t := Pick(ids);
      TerminateCallsCount(ids - {t});
      TerminateCallsAdd(ids - {t}, t);
      assert ids - {t} + {t} == ids;
      assert TerminateDecreaseCall(t) !in TerminateCalls(ids - {t});
    }
  }

  /**
   * A host that is idle and also the scale-in candidate is drained twice in the
   * same pass: the candidate drain is not checked against the idle drains.
   */
  lemma IdleCandidateDrainedTwice(d: ClusterData, cpu: real, cluster: Arn, id: InstanceId)
    requires ScaleInGate(d) && id in d.emptyInstances
    requires CandidateDrain(d, cpu) == Some(d.emptyInstances[id])
    ensures ClusterCalls(d, cpu, cluster)[DrainCall(d.emptyInstances[id], cluster)] >= 2
  {
    DrainBagRemove(d.emptyInstances, d.emptyInstances.Keys, id, cluster);
  }

  /** The ids of `ks` whose first draining host has no task. */
  function Terminable(ks: set<InstanceId>, described: seq<Instance>): set<InstanceId>
  {
    set k | k in ks && NoTasks(RunningTasks(k, described))
  }

  lemma TerminableAdd(ks: set<InstanceId>, k: InstanceId, described: seq<Instance>)
    ensures Terminable(ks + {k}, described) ==
      Terminable(ks, described) + (if NoTasks(RunningTasks(k, described)) then {k} else {})
  {
  }

  /** What one iteration of the idle-drain loop preserves. */
  ghost predicate DrainLoopInv(m: map<InstanceId, Arn>, cluster: Arn, done: set<InstanceId>, pending: set<InstanceId>,
                               idle: set<Arn>, planned: seq<Call>)
  {
    && done !! pending && done + pending == m.Keys
    && idle == ArnsOf(m, done)
    && multiset(planned) == DrainBag(m, done, cluster)
  }

  lemma DrainLoopStep(m: map<InstanceId, Arn>, cluster: Arn, done: set<InstanceId>, pending: set<InstanceId>,
                      idle: set<Arn>, planned: seq<Call>, id: InstanceId)
    requires DrainLoopInv(m, cluster, done, pending, idle, planned) && id in pending
    ensures DrainLoopInv(m, cluster, done + {id}, pending - {id}, idle + {m[id]}, planned + [DrainCall(m[id], cluster)])
    ensures |pending - {id}| < |pending|
  {
    ArnsOfAdd(m, done, id);
    DrainBagRemove(m, done + {id}, id, cluster);
    assert done + {id} - {id} == done;
  }

  lemma DrainLoopDone(m: map<InstanceId, Arn>, cluster: Arn, done: set<InstanceId>, pending: set<InstanceId>,
                      idle: set<Arn>, planned: seq<Call>)
    requires DrainLoopInv(m, cluster, done, pending, idle, planned) && pending == {}
    ensures idle == m.Values && multiset(planned) == DrainBag(m, m.Keys, cluster)
  {
    assert done == m.Keys;
    ArnsOfAll(m);
  }

  /** What one iteration of the termination loop preserves. */
  ghost predicate TerminateLoopInv(keys: set<InstanceId>, described: seq<Instance>, done: set<InstanceId>,
                                   pending: set<InstanceId>, terms: set<InstanceId>, planned: seq<Call>)
  {
    && done !! pending && done + pending == keys
    && terms == Terminable(done, described)
    && multiset(planned) == multiset(TerminateCalls(terms))
  }

  /** Adding a call that is not in a set adds it once to the set's bag. */
  lemma BagOfSetAdd(s: set<Call>, c: Call)
    requires c !in s
    ensures multiset(s + {c}) == multiset(s) + multiset{c}
  {
    assert forall x :: multiset(s + {c})[x] == (multiset(s) + multiset{c})[x];
  }

  lemma TerminateLoopStep(keys: set<InstanceId>, described: seq<Instance>, done: set<InstanceId>,
                          pending: set<InstanceId>, terms: set<InstanceId>, planned: seq<Call>, id: InstanceId,
                          drained: bool, run: RunMode, start: seq<Call>, before: seq<Call>, after: seq<Call>)
    requires TerminateLoopInv(keys, described, done, pending, terms, planned) && id in pending
    requires Logged(run, start, planned, before)
    requires drained == NoTasks(RunningTasks(id, described))
    requires after == if drained && run == Normal then before + [TerminateDecreaseCall(id)] else before
    ensures |pending - {id}| < |pending|
    ensures drained ==>
      && TerminateLoopInv(keys, described, done + {id}, pending - {id}, terms + {id}, planned + [TerminateDecreaseCall(id)])
      && Logged(run, start, planned + [TerminateDecreaseCall(id)], after)
    ensures !drained ==>
      && TerminateLoopInv(keys, described, done + {id}, pending - {id}, terms, planned)
      && Logged(run, start, planned, after)
  {
    TerminableAdd(done, id, described);
    if drained {
      TerminateCallsAdd(terms, id);
      assert TerminateDecreaseCall(id) !in TerminateCalls(terms);
      BagOfSetAdd(TerminateCalls(terms), TerminateDecreaseCall(id));
      LogStep(run, start, planned, before, after, TerminateDecreaseCall(id));
    }
  }

  lemma TerminateLoopDone(keys: set<InstanceId>, described: seq<Instance>, done: set<InstanceId>,
                          pending: set<InstanceId>, terms: set<InstanceId>, planned: seq<Call>)
    requires TerminateLoopInv(keys, described, done, pending, terms, planned) && pending == {}
    ensures terms == Terminable(keys, described)
    ensures multiset(planned) == multiset(TerminateCalls(terms))
  {
    assert done == keys;
  }

  /** The log is `start` in a dry run and `start` followed by `planned` in a normal run. */
  ghost predicate Logged(run: RunMode, start: seq<Call>, planned: seq<Call>, calls: seq<Call>)
  {
    && (run == Dry ==> calls == start)
    && (run == Normal ==> calls == start + planned)
  }

  lemma LogStep(run: RunMode, start: seq<Call>, planned: seq<Call>, before: seq<Call>, after: seq<Call>, c: Call)
    requires Logged(run, start, planned, before)
    requires run == Normal ==> after == before + [c]
    requires run == Dry ==> after == before
    ensures Logged(run, start, planned + [c], after)
  {
    if run == Normal {
      LogGrows(start, planned, c);
    }
  }

  lemma LogDone(run: RunMode, start: seq<Call>, planned: seq<Call>, calls: seq<Call>)
    requires Logged(run, start, planned, calls)
    ensures run == Dry ==> calls == start
    ensures run == Normal ==>
      && |calls| == |start| + |planned| && calls[..|start|] == start
      && Appended(start, calls) == planned
  {
    if run == Normal {
      LogSplits(start, planned);
    }
  }

  lemma LogGrows(start: seq<Call>, planned: seq<Call>, c: Call)
    ensures start + planned + [c] == start + (planned + [c])
  {
  }

  lemma LogSplits(start: seq<Call>, planned: seq<Call>)
    ensures |start| <= |start + planned|
    ensures Appended(start, start + planned) == planned
    ensures (start + planned)[..|start|] == start
  {
  }

  /** The idle-instance loop (lines 242-249): one drain per entry of the map. */
  method DrainIdle(mutator: Mutator, cluster: Arn, emptyInstances: map<InstanceId, Arn>, run: RunMode)
    returns (idle: set<Arn>)
    modifies mutator
    ensures idle == emptyInstances.Values
    ensures run == Dry ==> mutator.calls == old(mutator.calls)
    ensures run == Normal ==>
      && |old(mutator.calls)| <= |mutator.calls|
      && mutator.calls[..|old(mutator.calls)|] == old(mutator.calls)
      && multiset(Appended(old(mutator.calls), mutator.calls))
           == DrainBag(emptyInstances, emptyInstances.Keys, cluster)
  {
    ghost var start := mutator.calls;
    ghost var planned: seq<Call> := [];
    ghost var done: set<InstanceId> := {};
    idle := {};
    var m := emptyInstances;
    var pending := m.Keys;
    while pending != {}
      invariant DrainLoopInv(m, cluster, done, pending, idle, planned)
      invariant Logged(run, start, planned, mutator.calls)
      decreases |pending|
    {
      var instanceId :| instanceId in pending;
      var containerInstId := m[instanceId];
      ghost var before := mutator.calls;
      if run == Normal {
        mutator.DrainInstance(containerInstId, cluster);
      }
      LogStep(run, start, planned, before, mutator.calls, DrainCall(containerInstId, cluster));
      DrainLoopStep(m, cluster, done, pending, idle, planned, instanceId);
      planned := planned + [DrainCall(containerInstId, cluster)];
      done := done + {instanceId};
      idle := idle + {containerInstId};
      pending := pending - {instanceId};
    }
    DrainLoopDone(m, cluster, done, pending, idle, planned);
    LogDone(run, start, planned, mutator.calls);
  }

  /** The termination loop (lines 264-274): one termination per draining id without tasks. */
  method TerminateDrained(mutator: Mutator, drainingInstances: map<InstanceId, Arn>,
                          drainingContainerDescribed: seq<Instance>, run: RunMode)
    returns (terms: set<InstanceId>)
    modifies mutator
    ensures terms == Terminable(drainingInstances.Keys, drainingContainerDescribed)
    ensures run == Dry ==> mutator.calls == old(mutator.calls)
    ensures run == Normal ==>
      && |old(mutator.calls)| <= |mutator.calls|
      && mutator.calls[..|old(mutator.calls)|] == old(mutator.calls)
      && multiset(Appended(old(mutator.calls), mutator.calls)) == multiset(TerminateCalls(terms))
  {
    ghost var start := mutator.calls;
    ghost var planned: seq<Call> := [];
    ghost var done: set<InstanceId> := {};
    terms := {};
    var pending := drainingInstances.Keys;
    while pending != {}
      invariant TerminateLoopInv(drainingInstances.Keys, drainingContainerDescribed, done, pending, terms, planned)
                && Logged(run, start, planned, mutator.calls)
      decreases |pending|
    {
      var instanceId :| instanceId in pending;
      ghost var before := mutator.calls;
      var drained := NoTasks(RunningTasks(instanceId, drainingContainerDescribed));
      if drained && run == Normal {
        mutator.TerminateDecrease(instanceId);
      }
      TerminateLoopStep(drainingInstances.Keys, drainingContainerDescribed, done, pending, terms, planned, instanceId,
                        drained, run, start, before, mutator.calls);
      if drained {
        planned := planned + [TerminateDecreaseCall(instanceId)];
        terms := terms + {instanceId};
      }
      done := done + {instanceId};
      pending := pending - {instanceId};
    }
    TerminateLoopDone(drainingInstances.Keys, drainingContainerDescribed, done, pending, terms, planned);
    LogDone(run, start, planned, mutator.calls);
  }

  /** Two consecutive appends: the bag of the whole is the sum of the parts' bags. */
  lemma AppendedInTwo(s0: seq<Call>, s1: seq<Call>, s2: seq<Call>)
    requires |s0| <= |s1| && s1[..|s0|] == s0
    requires |s1| <= |s2| && s2[..|s1|] == s1
    ensures |s0| <= |s2| && s2[..|s0|] == s0
    ensures multiset(Appended(s0, s2)) == multiset(Appended(s0, s1)) + multiset(Appended(s1, s2))
  {
    assert s2[..|s0|] == s2[..|s1|][..|s0|];
    assert Appended(s0, s2) == Appended(s0, s1) + Appended(s1, s2);
  }

  /** The scale-in part of the rule block (lines 239-261). */
  method DrainForScaleIn(mutator: Mutator, cluster: Arn, data: ClusterData, cpu: real, run: RunMode)
    returns (idle: set<Arn>, candidate: Option<Arn>)
    modifies mutator
    ensures idle == IdleDrains(data) && candidate == CandidateDrain(data, cpu)
    ensures run == Dry ==> mutator.calls == old(mutator.calls)
    ensures run == Normal ==>
      && |old(mutator.calls)| <= |mutator.calls|
      && mutator.calls[..|old(mutator.calls)|] == old(mutator.calls)
      && multiset(Appended(old(mutator.calls), mutator.calls))
           == IdleBag(data, cluster) + CandidateBag(candidate, cluster)
  {
    ghost var s0 := mutator.calls;
    idle, candidate := {}, None;
    if data.clusterMemReservation < FutureMemTh
       && FutureReservation(data.activeContainerDescribed, data.clusterMemReservation) < FutureMemTh
    {
      idle := DrainIdle(mutator, cluster, data.emptyInstances, run);
      ghost var s1 := mutator.calls;
      if data.clusterMemReservation < ScaleInMemTh {
        if cpu < ScaleInCpuTh {
          var best := ScaleInInstance(data.activeContainerDescribed);
          candidate := best.containerInstanceArn;
          if candidate.Some? && run == Normal {
            mutator.DrainInstance(candidate.value, cluster);
          }
        }
      }
      CandidateLogged(s1, mutator.calls, candidate, cluster, run);
      if run == Normal {
        AppendedInTwo(s0, s1, mutator.calls);
      }
    } else {
      NothingAppended(s0, run);
    }
  }

  /** The candidate drain adds at most one call, the one `CandidateBag` names. */
  lemma CandidateLogged(s1: seq<Call>, s2: seq<Call>, candidate: Option<Arn>, cluster: Arn, run: RunMode)
    requires s2 == if candidate.Some? && run == Normal then s1 + [DrainCall(candidate.value, cluster)] else s1
    ensures run == Normal ==>
      && |s1| <= |s2| && s2[..|s1|] == s1
      && multiset(Appended(s1, s2)) == CandidateBag(candidate, cluster)
  {
    if run == Normal {
      assert Appended(s1, s2) == if candidate.Some? then [DrainCall(candidate.value, cluster)] else [];
    }
  }

  lemma NothingAppended(s0: seq<Call>, run: RunMode)
    ensures run == Normal ==> s0[..|s0|] == s0 && multiset(Appended(s0, s0)) == multiset{}
  {
    if run == Normal {
      assert Appended(s0, s0) == [];
    }
  }

  /**
   * The rule block of the main loop for one cluster. The decision is the same in
   * both modes; a dry run makes no call, a normal run makes one drain per idle
   * entry, one for the candidate (even if it was drained as idle already) and one
   * termination per terminated id.
   */
  method ApplyRules(mutator: Mutator, cluster: Arn, data: ClusterData, cpu: real, run: RunMode)
    returns (d: Decision)
    modifies mutator
    ensures d == Decide(data, cpu)
    ensures run == Dry ==> mutator.calls == old(mutator.calls)
    ensures run == Normal ==>
      && |old(mutator.calls)| <= |mutator.calls|
      && mutator.calls[..|old(mutator.calls)|] == old(mutator.calls)
      && multiset(Appended(old(mutator.calls), mutator.calls)) == ClusterCalls(data, cpu, cluster)
  {
    ghost var s0 := mutator.calls;
    var idle, candidate := DrainForScaleIn(mutator, cluster, data, cpu, run);
    ghost var s1 := mutator.calls;
    var terms := TerminateDrained(mutator, data.drainingInstances, data.drainingContainerDescribed, run);
    d := Decision(idle, candidate, terms);
    if run == Normal {
      AppendedInTwo(s0, s1, mutator.calls);
    }
  }

  /** Every managed cluster's ARN names a cluster (the source indexes `split('/')[1]`). */
  ghost predicate Named(clusterList: seq<Arn>)
  {
    forall c :: c in clusterList ==> ClusterName(c).Some?
  }

  /** The decision one iteration of the main loop takes for `cluster`: none without an active host. */
  function DecisionFor(cluster: Arn, obs: Observation): Option<Decision>
    requires ClusterName(cluster).Some?
  {
    if obs.activeContainerDescribed == [] then None
    else Some(Decide(SnapshotOf(cluster, obs), obs.cpuUtilization))
  }

  /** The decisions of one invocation over `clusterList`, in order; clusters without active hosts are skipped. */
  function Decisions(clusterList: seq<Arn>, observe: Arn -> Observation): seq<(Arn, Decision)>
    requires Named(clusterList)
  {
    if clusterList == [] then []
    else
      var rest := Decisions(clusterList[..|clusterList| - 1], observe);
      var c := clusterList[|clusterList| - 1];
      var d := DecisionFor(c, observe(c));
      if d.None? then rest else rest + [(c, d.value)]
  }

  /** `Decisions` over a non-empty list, in terms of the list without its last cluster. */
  lemma DecisionsUnfold(clusterList: seq<Arn>, observe: Arn -> Observation)
    requires clusterList != [] && Named(clusterList)
    ensures Named(clusterList[..|clusterList| - 1])
    ensures
      var p, c := clusterList[..|clusterList| - 1], clusterList[|clusterList| - 1];
      Decisions(clusterList, observe) == Extend(Decisions(p, observe), c, DecisionFor(c, observe(c)))
  {
    var p := clusterList[..|clusterList| - 1];
    assert forall a :: a in p ==> a in clusterList;
  }

  /** Decisions are made only for managed clusters that have an active host, each from its own snapshot. */
  lemma {:induction false} DecisionsAreForManagedClusters(clusterList: seq<Arn>, observe: Arn -> Observation)
    requires Named(clusterList)
    ensures forall k :: 0 <= k < |Decisions(clusterList, observe)| ==>
      var (c, d) := Decisions(clusterList, observe)[k];
      c in clusterList && DecisionFor(c, observe(c)) == Some(d)
  {
    if clusterList != [] {
      DecisionsUnfold(clusterList, observe);
      var p := clusterList[..|clusterList| - 1];
      assert forall c :: c in p ==> c in clusterList;
      DecisionsAreForManagedClusters(p, observe);
    }
  }

  /** `(c, d)` is an entry of `ds`. */
  ghost predicate Listed(ds: seq<(Arn, Decision)>, c: Arn, d: Decision)
  {
    exists k :: 0 <= k < |ds| && ds[k] == (c, d)
  }

  /** A managed cluster `c` with an active host gets its decision. */
  lemma {:induction false} ActiveClusterDecided(clusterList: seq<Arn>, observe: Arn -> Observation, c: Arn)
    requires Named(clusterList) && c in clusterList && DecisionFor(c, observe(c)).Some?
    ensures Listed(Decisions(clusterList, observe), c, DecisionFor(c, observe(c)).value)
  {
    DecisionsUnfold(clusterList, observe);
    var p := clusterList[..|clusterList| - 1];
    var last := clusterList[|clusterList| - 1];
    var rest := Decisions(p, observe);
    var v := DecisionFor(c, observe(c)).value;
    if c == last {
      assert Decisions(clusterList, observe) == rest + [(c, v)];
      assert Decisions(clusterList, observe)[|rest|] == (c, v);
    } else {
      assert c in p by {
        assert clusterList == p + [last];
      }
      ActiveClusterDecided(p, observe, c);
      var k :| 0 <= k < |rest| && rest[k] == (c, v);
      assert Decisions(clusterList, observe)[k] == rest[k];
    }
  }

  /** Every managed cluster with an active host gets its decision. */
  lemma {:induction false} ActiveClustersAreDecided(clusterList: seq<Arn>, observe: Arn -> Observation)
    requires Named(clusterList)
    ensures forall c :: c in clusterList && DecisionFor(c, observe(c)).Some? ==>
      Listed(Decisions(clusterList, observe), c, DecisionFor(c, observe(c)).value)
  {
    forall c | c in clusterList && DecisionFor(c, observe(c)).Some?
      ensures Listed(Decisions(clusterList, observe), c, DecisionFor(c, observe(c)).value)
    {
      ActiveClusterDecided(clusterList, observe, c);
    }
  }

  /** The calls one iteration of the main loop makes for `cluster` in a normal run. */
  ghost function CallsFor(cluster: Arn, obs: Observation): multiset<Call>
    requires ClusterName(cluster).Some?
  {
    if obs.activeContainerDescribed == [] then multiset{}
    else ClusterCalls(SnapshotOf(cluster, obs), obs.cpuUtilization, cluster)
  }

  /** The calls of one invocation over `clusterList` in a normal run, with their multiplicity. */
  ghost function PassCalls(clusterList: seq<Arn>, observe: Arn -> Observation): multiset<Call>
    requires Named(clusterList)
  {
    if clusterList == [] then multiset{}
    else
      var c := clusterList[|clusterList| - 1];
      PassCalls(clusterList[..|clusterList| - 1], observe) + CallsFor(c, observe(c))
  }

  /** `PassCalls` over a non-empty list, in terms of the list without its last cluster. */
  lemma PassCallsUnfold(clusterList: seq<Arn>, observe: Arn -> Observation)
    requires clusterList != [] && Named(clusterList)
    ensures Named(clusterList[..|clusterList| - 1])
    ensures
      var p, c := clusterList[..|clusterList| - 1], clusterList[|clusterList| - 1];
      PassCalls(clusterList, observe) == PassCalls(p, observe) + CallsFor(c, observe(c))
  {
    var p := clusterList[..|clusterList| - 1];
    assert forall a :: a in p ==> a in clusterList;
  }

  /** Some decision of `ds` stands for the call `x`. */
  ghost predicate DecidedCall(ds: seq<(Arn, Decision)>, x: Call)
  {
    exists k :: 0 <= k < |ds| && x in CallsOf(ds[k].1, ds[k].0)
  }

  lemma DecidedCallAppend(ds: seq<(Arn, Decision)>, e: seq<(Arn, Decision)>, x: Call)
    ensures DecidedCall(ds + e, x) <==> DecidedCall(ds, x) || DecidedCall(e, x)
  {
    if DecidedCall(ds + e, x) {
      var k :| 0 <= k < |ds + e| && x in CallsOf((ds + e)[k].1, (ds + e)[k].0);
      if k >= |ds| {
        assert (ds + e)[k] == e[k - |ds|];
      }
    }
    if DecidedCall(ds, x) {
      var k :| 0 <= k < |ds| && x in CallsOf(ds[k].1, ds[k].0);
      assert (ds + e)[k] == ds[k];
    }
    if DecidedCall(e, x) {
      var k :| 0 <= k < |e| && x in CallsOf(e[k].1, e[k].0);
      assert (ds + e)[|ds| + k] == e[k];
    }
  }

  /** The distinct calls of a pass are exactly the calls of its decisions, each for its own cluster. */
  lemma {:induction false} PassCallsOfDecisions(clusterList: seq<Arn>, observe: Arn -> Observation)
    requires Named(clusterList)
    ensures forall x :: x in PassCalls(clusterList, observe) <==> DecidedCall(Decisions(clusterList, observe), x)
  {
    if clusterList != [] {
      DecisionsUnfold(clusterList, observe);
      PassCallsUnfold(clusterList, observe);
      var p := clusterList[..|clusterList| - 1];
      var c := clusterList[|clusterList| - 1];
      PassCallsOfDecisions(p, observe);
      var obs := observe(c);
      var e: seq<(Arn, Decision)> := if obs.activeContainerDescribed == [] then []
                                     else [(c, Decide(SnapshotOf(c, obs), obs.cpuUtilization))];
      if obs.activeContainerDescribed != [] {
        ClusterCallsMatchDecision(SnapshotOf(c, obs), obs.cpuUtilization, c);
      }
      forall x ensures x in CallsFor(c, obs) <==> DecidedCall(e, x) {
        if obs.activeContainerDescribed != [] && x in CallsFor(c, obs) {
          assert x in CallsOf(e[0].1, e[0].0);
        }
      }
      forall x ensures x in PassCalls(clusterList, observe) <==> DecidedCall(Decisions(clusterList, observe), x) {
        DecidedCallAppend(Decisions(p, observe), e, x);
      }
    }
  }

  /** Every drain of a pass is addressed to a cluster of the pass. */
  lemma {:induction false} PassCallsWithin(clusterList: seq<Arn>, observe: Arn -> Observation)
    requires Named(clusterList)
    ensures forall x :: x in PassCalls(clusterList, observe) && x.DrainCall? ==> x.cluster in clusterList
  {
    if clusterList != [] {
      var p := clusterList[..|clusterList| - 1];
      var c := clusterList[|clusterList| - 1];
      assert forall a :: a in p ==> a in clusterList;
      PassCallsWithin(p, observe);
      var obs := observe(c);
      if obs.activeContainerDescribed != [] {
        ClusterCallsMatchDecision(SnapshotOf(c, obs), obs.cpuUtilization, c);
        forall x | x in CallsFor(c, obs) && x.DrainCall? ensures x.cluster == c {
          CallsOfOwnCluster(Decide(SnapshotOf(c, obs), obs.cpuUtilization), c, x);
        }
      }
    }
  }

  /** One iteration of the main loop: retrieve the snapshot, then apply the rules. */
  method ScaleInCluster(mutator: Mutator, cluster: Arn, obs: Observation, run: RunMode)
    returns (decision: Option<Decision>)
    requires ClusterName(cluster).Some?
    modifies mutator
    ensures decision == DecisionFor(cluster, obs)
    ensures run == Dry ==> mutator.calls == old(mutator.calls)
    ensures run == Normal ==>
      && |old(mutator.calls)| <= |mutator.calls|
      && mutator.calls[..|old(mutator.calls)|] == old(mutator.calls)
      && multiset(Appended(old(mutator.calls), mutator.calls)) == CallsFor(cluster, obs)
  {
    var clusterData := RetrieveClusterData(cluster, obs);
    if clusterData.None? {
      NothingAppended(mutator.calls, run);
      return None;
    }
    var d := ApplyRules(mutator, cluster, clusterData.value, obs.cpuUtilization, run);
    decision := Some(d);
  }

  /**
   * One iteration of the main loop for `cluster` took `decision` and turned the
   * log `s1` into `s2`: unchanged in a dry run, extended by exactly the calls of
   * `CallsFor(cluster, obs)` in a normal run.
   */
  ghost predicate ClusterHandled(cluster: Arn, obs: Observation, run: RunMode, s1: seq<Call>, s2: seq<Call>,
                                 decision: Option<Decision>)
    requires ClusterName(cluster).Some?
  {
    && decision == DecisionFor(cluster, obs)
    && (run == Dry ==> s2 == s1)
    && (run == Normal ==>
      && |s1| <= |s2| && s2[..|s1|] == s1
      && multiset(Appended(s1, s2)) == CallsFor(cluster, obs))
  }

  /**
   * The main loop after the first `i` clusters: the decisions are those of the
   * prefix, and the log is unchanged in a dry run and extended by exactly the
   * prefix's calls in a normal run.
   */
  ghost predicate PassSoFar(clusterList: seq<Arn>, i: int, observe: Arn -> Observation, run: RunMode,
                            start: seq<Call>, calls: seq<Call>, decisions: seq<(Arn, Decision)>)
  {
    && 0 <= i <= |clusterList| && Named(clusterList) && Named(clusterList[..i])
    && decisions == Decisions(clusterList[..i], observe)
    && (run == Dry ==> calls == start)
    && (run == Normal ==>
         && |start| <= |calls| && calls[..|start|] == start
         && multiset(Appended(start, calls)) == PassCalls(clusterList[..i], observe))
  }

  /** The decisions so far, followed by `cluster`'s decision if it took one. */
  function Extend(decisions: seq<(Arn, Decision)>, cluster: Arn, decision: Option<Decision>): seq<(Arn, Decision)>
  {
    if decision.Some? then decisions + [(cluster, decision.value)] else decisions
  }

  lemma PassStart(clusterList: seq<Arn>, observe: Arn -> Observation, run: RunMode, start: seq<Call>)
    requires Named(clusterList)
    ensures PassSoFar(clusterList, 0, observe, run, start, start, [])
  {
    assert clusterList[..0] == [];
    NothingAppended(start, run);
  }

  lemma PassStep(clusterList: seq<Arn>, i: int, observe: Arn -> Observation, run: RunMode,
                 start: seq<Call>, s1: seq<Call>, s2: seq<Call>,
                 decisions: seq<(Arn, Decision)>, decision: Option<Decision>)
    requires PassSoFar(clusterList, i, observe, run, start, s1, decisions) && i < |clusterList|
    requires ClusterName(clusterList[i]).Some?
    requires ClusterHandled(clusterList[i], observe(clusterList[i]), run, s1, s2, decision)
    ensures PassSoFar(clusterList, i + 1, observe, run, start, s2, Extend(decisions, clusterList[i], decision))
  {
    var l := clusterList[..i + 1];
    assert l[..|l| - 1] == clusterList[..i];
    assert l[|l| - 1] == clusterList[i];
    assert forall c :: c in l ==> c in clusterList;
    DecisionsUnfold(l, observe);
    PassCallsUnfold(l, observe);
    if run == Normal {
      AppendedInTwo(start, s1, s2);
    }
  }

  lemma PassDone(clusterList: seq<Arn>, observe: Arn -> Observation, run: RunMode,
                 start: seq<Call>, calls: seq<Call>, decisions: seq<(Arn, Decision)>)
    requires PassSoFar(clusterList, |clusterList|, observe, run, start, calls, decisions)
    ensures decisions == Decisions(clusterList, observe)
    ensures run == Dry ==> calls == start
    ensures run == Normal ==>
      && |start| <= |calls| && calls[..|start|] == start
      && multiset(Appended(start, calls)) == PassCalls(clusterList, observe)
  {
    assert clusterList[..|clusterList|] == clusterList;
  }

  /** The loop of `main` over the managed clusters (lines 227-276). */
  method ScaleInClusters(mutator: Mutator, clusterList: seq<Arn>, observe: Arn -> Observation, run: RunMode)
    returns (decisions: seq<(Arn, Decision)>)
    requires Named(clusterList)
    modifies mutator
    ensures decisions == Decisions(clusterList, observe)
    ensures run == Dry ==> mutator.calls == old(mutator.calls)
    ensures run == Normal ==>
      && |old(mutator.calls)| <= |mutator.calls|
      && mutator.calls[..|old(mutator.calls)|] == old(mutator.calls)
      && multiset(Appended(old(mutator.calls), mutator.calls)) == PassCalls(clusterList, observe)
  {
    decisions := [];
    var i := 0;
    PassStart(clusterList, observe, run, mutator.calls);
    while i < |clusterList|
      invariant PassSoFar(clusterList, i, observe, run, old(mutator.calls), mutator.calls, decisions)
      decreases |clusterList| - i
    {
      var cluster := clusterList[i];
      ghost var before := mutator.calls;
      var decision := ScaleInCluster(mutator, cluster, observe(cluster), run);
      PassStep(clusterList, i, observe, run, old(mutator.calls), before, mutator.calls, decisions, decision);
      decisions := Extend(decisions, cluster, decision);
      i := i + 1;
    }
    PassDone(clusterList, observe, run, old(mutator.calls), mutator.calls, decisions);
  }

  /**
   * `main`: list the clusters, drop the excluded ones, and apply the rules to each
   * cluster that has an active host. A dry run decides the same and calls nothing;
   * a normal run makes exactly the calls of every cluster's decision.
   */
  method ScaleIn(mutator: Mutator, clusterArns: seq<Arn>, observe: Arn -> Observation, run: RunMode)
    returns (decisions: seq<(Arn, Decision)>)
    requires Named(Clusters(clusterArns))
    modifies mutator
    ensures decisions == Decisions(Clusters(clusterArns), observe)
    ensures run == Dry ==> mutator.calls == old(mutator.calls)
    ensures run == Normal ==>
      && |old(mutator.calls)| <= |mutator.calls|
      && mutator.calls[..|old(mutator.calls)|] == old(mutator.calls)
      && multiset(Appended(old(mutator.calls), mutator.calls)) == PassCalls(Clusters(clusterArns), observe)
  {
    var clusterList := Clusters(clusterArns);
    decisions := ScaleInClusters(mutator, clusterList, observe, run);
  }

  /** The calls a decision stands for drain hosts of its own cluster only. */
  lemma CallsOfOwnCluster(d: Decision, cluster: Arn, c: Call)
    requires c in CallsOf(d, cluster) && c.DrainCall?
    ensures c.cluster == cluster
  {
  }
}
