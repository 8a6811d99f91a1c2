/**
 * The per-cluster scaling rules of the main loop: the future-reservation
 * gate, the idle and candidate drains inside it, and the termination sweep
 * over draining hosts, as a function from a snapshot to the decisions taken.
 */
module Rules {
  import opened Wrappers
  import opened Records
  import opened Snapshot
  import opened Selection

  /**
   * `future_reservation`: the reservation if the same demand were spread over
   * one host fewer; the sentinel 100 when there are not two hosts.
   */
  function FutureReservation(active: seq<Instance>, clusterMemReservation: real): (r: real)
    ensures |active| > 1 ==> r * (|active| - 1) as real == clusterMemReservation * |active| as real
    ensures |active| <= 1 ==> r == 100.0
  {
    var numOfEc2 := |active|;
    if numOfEc2 > 1 then (clusterMemReservation * numOfEc2 as real) / (numOfEc2 - 1) as real
    else 100.0
  }

  /** With two or more hosts the gate `F < 70` is `m * n < 70 * (n - 1)`. */
  lemma FutureGateByCrossMultiplying(active: seq<Instance>, m: real)
    requires |active| > 1
    ensures FutureReservation(active, m) < FutureMemTh <==>
      m * |active| as real < FutureMemTh * (|active| - 1) as real
  {
    var n := |active| as real;
    var f := FutureReservation(active, m);
    assert f * (n - 1.0) == m * n;
    if f < FutureMemTh {
      assert f * (n - 1.0) < FutureMemTh * (n - 1.0);
    } else {
      assert f * (n - 1.0) >= FutureMemTh * (n - 1.0);
    }
  }

  /** The projection never falls below the current reservation, so it only tightens the gate. */
  lemma FutureReservationIsConservative(active: seq<Instance>, m: real)
    requires |active| > 1 && m >= 0.0
    ensures FutureReservation(active, m) >= m
  {
    var n := |active| as real;
    var f := FutureReservation(active, m);
    assert f * (n - 1.0) == m * n;
  }

  /** The dictionary `retrieve_cluster_data` hands to the rules. */
  datatype ClusterData = ClusterData(
    clusterName: string,
    clusterMemReservation: real,
    activeContainerDescribed: seq<Instance>,
    drainingInstances: map<InstanceId, Arn>,
    emptyInstances: map<InstanceId, Arn>,
    drainingContainerDescribed: seq<Instance>)

  /** The two maps are the ones built from the two instance lists. */
  ghost predicate Consistent(d: ClusterData)
  {
    && d.emptyInstances == Collect(d.activeContainerDescribed, true)
    && d.drainingInstances == Collect(d.drainingContainerDescribed, false)
  }

  /** What one pass decides for one cluster, whatever the run mode. */
  datatype Decision = Decision(
    idleDrains: set<Arn>,
    candidateDrain: Option<Arn>,
    terminations: set<InstanceId>)

  /** The condition at lines 239-240: current and projected reservation below `FutureMemTh`. */
  predicate ScaleInGate(d: ClusterData)
  {
    d.clusterMemReservation < FutureMemTh
    && FutureReservation(d.activeContainerDescribed, d.clusterMemReservation) < FutureMemTh
  }

  /**
   * The rule block for one cluster, given the CPU average the metric lookup
   * would return. No candidate drain is decided when the selection found no
   * host (where the source's lookup of `containerInstanceArn` would fail).
   */
  function Decide(d: ClusterData, cpu: real): Decision
  {
    Decision(IdleDrains(d), CandidateDrain(d, cpu), Terminations(d))
  }

  /** Lines 239-249: every idle host is drained when the gate is open. */
  function IdleDrains(d: ClusterData): set<Arn>
  {
    if ScaleInGate(d) then d.emptyInstances.Values else {}
  }

  /** Lines 250-262: the scale-in candidate, under the gate, low reservation and low CPU. */
  function CandidateDrain(d: ClusterData, cpu: real): Option<Arn>
  {
    if ScaleInGate(d) && d.clusterMemReservation < ScaleInMemTh && cpu < ScaleInCpuTh
    then Select(d.activeContainerDescribed).containerInstanceArn
    else None
  }

  /** Lines 264-274: the draining ids whose host runs no task. */
  function Terminations(d: ClusterData): set<InstanceId>
  {
    set id | id in d.drainingInstances && NoTasks(RunningTasks(id, d.drainingContainerDescribed))
  }

  /**
   * Idle drains happen only through the gate; inside it they are the ARNs of
   * the idle hosts, each the last one recorded for its id.
   */
  lemma IdleDrainsAreIdleHosts(d: ClusterData, cpu: real)
    requires Consistent(d)
    ensures !ScaleInGate(d) ==> Decide(d, cpu).idleDrains == {}
    ensures ScaleInGate(d) ==> forall a :: a in Decide(d, cpu).idleDrains <==>
      (exists i :: LastKeptWithId(d.activeContainerDescribed, true, i)
                   && d.activeContainerDescribed[i].containerInstanceArn == a)
  {
    var s := d.activeContainerDescribed;
    CollectSpec(s, true);
    if ScaleInGate(d) {
      forall a ensures a in Decide(d, cpu).idleDrains <==>
        (exists i :: LastKeptWithId(s, true, i) && s[i].containerInstanceArn == a)
      {
        if a in Decide(d, cpu).idleDrains {
          var id :| id in d.emptyInstances && d.emptyInstances[id] == a;
          CollectValues(s, true, id);
        }
      }
    }
  }

  /**
   * A candidate drain is decided exactly when the gate holds, the reservation is
   * below `ScaleInMemTh`, the CPU below `ScaleInCpuTh`, and some host offers
   * positive free memory; it is then the first best host of the selection.
   */
  lemma CandidateDrainIsFirstBest(d: ClusterData, cpu: real)
    ensures Decide(d, cpu).candidateDrain.Some? <==>
      && ScaleInGate(d) && d.clusterMemReservation < ScaleInMemTh && cpu < ScaleInCpuTh
      && exists j :: 0 <= j < |d.activeContainerDescribed| && Examined(d.activeContainerDescribed[j])
                     && Mem(d.activeContainerDescribed[j]) > 0
    ensures Decide(d, cpu).candidateDrain.Some? ==>
      (exists i :: FirstBest(d.activeContainerDescribed, i)
                   && Decide(d, cpu).candidateDrain == Some(d.activeContainerDescribed[i].containerInstanceArn))
  {
    SelectMaximum(d.activeContainerDescribed);
    SelectIsFirstBest(d.activeContainerDescribed);
  }

  /** CPU at or above the threshold: a deliberate no-op for the candidate drain. */
  lemma HighCpuNoCandidate(d: ClusterData, cpu: real)
    requires cpu >= ScaleInCpuTh
    ensures Decide(d, cpu).candidateDrain == None
  {
  }

  /** A cluster with a single host never drains anything. */
  lemma SingleHostNeverDrains(d: ClusterData, cpu: real)
    requires |d.activeContainerDescribed| <= 1
    ensures Decide(d, cpu).idleDrains == {} && Decide(d, cpu).candidateDrain == None
  {
  }

  /**
   * The sweep terminates a draining id exactly when the first draining host with
   * that id has no running and no pending task.
   */
  lemma TerminationsAreEmptyDrainingHosts(d: ClusterData, cpu: real)
    requires Consistent(d)
    ensures forall id :: id in Decide(d, cpu).terminations <==>
      (exists i :: FirstWithId(d.drainingContainerDescribed, id, i)
                   && Idle(d.drainingContainerDescribed[i]))
  {
    var s := d.drainingContainerDescribed;
    CollectKeys(s, false);
    forall id ensures id in Decide(d, cpu).terminations <==>
      (exists i :: FirstWithId(s, id, i) && Idle(s[i]))
    {
      var r := RunningTasks(id, s);
      RunningTasksSpec(id, s);
      if r.Some? {
        var k :| FirstWithId(s, id, k) && r.value == s[k].runningTasksCount + s[k].pendingTasksCount;
        assert Kept(s[k], false);
        assert id in d.drainingInstances;
        forall i | FirstWithId(s, id, i) ensures i == k {}
      } else {
        assert id !in d.drainingInstances;
      }
    }
  }

  /** The sweep runs whatever the reservation and CPU are. */
  lemma TerminationsIgnoreMetrics(d: ClusterData, cpu: real, m: real, cpu': real)
    ensures Decide(d, cpu).terminations == Decide(d.(clusterMemReservation := m), cpu').terminations
  {
  }
}
