/**
 * Concrete passes of the rules on small clusters: the projection, the
 * tie-breaks of the selection, and whole-cluster decisions.
 */
module Scenarios {
  import opened Wrappers
  import opened Records
  import opened Snapshot
  import opened Selection
  import opened Rules

  /** A host whose only remaining resource is `freeMem` of memory. */
  function Host(id: InstanceId, running: nat, pending: nat, freeMem: int): Instance
  {
    Instance(id, "arn:" + id, running, pending, [Resource("MEMORY", freeMem)])
  }

  function Consistently(name: string, m: real, active: seq<Instance>, draining: seq<Instance>): (d: ClusterData)
    ensures Consistent(d)
  {
    ClusterData(name, m, active, Collect(draining, false), Collect(active, true), draining)
  }

  lemma ProjectionOfFiveHosts()
    ensures FutureReservation([Host("a", 1, 0, 1), Host("b", 1, 0, 1), Host("c", 1, 0, 1),
                               Host("d", 1, 0, 1), Host("e", 1, 0, 1)], 60.0) == 75.0
  {
  }

  lemma HostMemory(id: InstanceId, running: nat, pending: nat, freeMem: int)
    ensures Examined(Host(id, running, pending, freeMem)) && Mem(Host(id, running, pending, freeMem)) == freeMem
  {
    assert Host(id, running, pending, freeMem).remainingResources[0].name == "MEMORY";
  }

  /** The pass over two hosts is two steps from the initial record. */
  lemma SelectTwo(x: Instance, y: Instance)
    ensures Select([x, y]) == Step(Step(Initial, x), y)
  {
    assert [x][..0] == [];
    assert Select([x]) == Step(Initial, x);
    assert [x, y][..1] == [x];
  }

  /** Equal free memory: fewer running tasks wins, even when it comes later. */
  lemma TieOnMemoryFewerTasksWins()
    ensures Select([Host("a", 2, 0, 500), Host("b", 1, 0, 500)]).containerInstanceArn == Some("arn:b")
  {
    HostMemory("a", 2, 0, 500);
    HostMemory("b", 1, 0, 500);
    SelectTwo(Host("a", 2, 0, 500), Host("b", 1, 0, 500));
    var c1 := Step(Initial, Host("a", 2, 0, 500));
    assert c1 == CandidateOf(Host("a", 2, 0, 500), 500);
    assert Step(c1, Host("b", 1, 0, 500)) == CandidateOf(Host("b", 1, 0, 500), 500);
    assert "arn:" + "b" == "arn:b";
  }

  /** More free memory wins over fewer running tasks. */
  lemma MoreMemoryWins()
    ensures Select([Host("a", 5, 0, 700), Host("b", 0, 0, 500)]).containerInstanceArn == Some("arn:a")
  {
    HostMemory("a", 5, 0, 700);
    HostMemory("b", 0, 0, 500);
    SelectTwo(Host("a", 5, 0, 700), Host("b", 0, 0, 500));
    var c1 := Step(Initial, Host("a", 5, 0, 700));
    assert c1 == CandidateOf(Host("a", 5, 0, 700), 700);
    assert Step(c1, Host("b", 0, 0, 500)) == CandidateOf(Host("a", 5, 0, 700), 700);
    assert "arn:" + "a" == "arn:a";
  }

  /** A full tie keeps the host seen first. */
  lemma FullTieKeepsFirst()
    ensures Select([Host("a", 1, 0, 500), Host("b", 1, 0, 500)]).containerInstanceArn == Some("arn:a")
  {
    HostMemory("a", 1, 0, 500);
    HostMemory("b", 1, 0, 500);
    SelectTwo(Host("a", 1, 0, 500), Host("b", 1, 0, 500));
    var c1 := Step(Initial, Host("a", 1, 0, 500));
    assert c1 == CandidateOf(Host("a", 1, 0, 500), 500);
    assert Step(c1, Host("b", 1, 0, 500)) == CandidateOf(Host("a", 1, 0, 500), 500);
    assert "arn:" + "a" == "arn:a";
  }

  /**
   * Reservation 55 on four hosts, one idle, CPU 20: the projection 55 * 4 / 3 is
   * above 70, and the idle drain sits inside that gate, so nothing is drained.
   */
  lemma IdleDrainIsGated()
    ensures
      var active := [Host("i1", 0, 0, 900), Host("i2", 3, 0, 100), Host("i3", 2, 0, 200), Host("i4", 4, 0, 50)];
      Decide(Consistently("web", 55.0, active, []), 20.0) == Decision({}, None, {})
  {
  }

  /** Reservation 40 on five busy hosts, CPU 25: the host with most free memory is drained. */
  lemma BatchClusterDrainsLeastUtilised()
    ensures
      var active := [Host("i1", 3, 0, 100), Host("i2", 1, 0, 600), Host("i3", 2, 0, 300),
                     Host("i4", 4, 0, 600), Host("i5", 2, 1, 50)];
      Decide(Consistently("batch", 40.0, active, []), 25.0).candidateDrain == Some("arn:i2")
  {
    var active := [Host("i1", 3, 0, 100), Host("i2", 1, 0, 600), Host("i3", 2, 0, 300),
                   Host("i4", 4, 0, 600), Host("i5", 2, 1, 50)];
    HostMemory("i1", 3, 0, 100);
    HostMemory("i2", 1, 0, 600);
    HostMemory("i3", 2, 0, 300);
    HostMemory("i4", 4, 0, 600);
    HostMemory("i5", 2, 1, 50);
    assert active[..0] == [];
    assert active[..1] == active[..0] + [active[0]];
    assert active[..2] == active[..1] + [active[1]];
    assert active[..3] == active[..2] + [active[2]];
    assert active[..4] == active[..3] + [active[3]];
    assert active[..5] == active[..4] + [active[4]];
    assert Select(active[..1]) == CandidateOf(active[0], 100);
    assert Select(active[..2]) == CandidateOf(active[1], 600);
    assert Select(active[..3]) == CandidateOf(active[1], 600);
    assert Select(active[..4]) == CandidateOf(active[1], 600);
    assert Select(active) == CandidateOf(active[1], 600);
    assert "arn:" + "i2" == "arn:i2";
  }

  /** Of two draining hosts, only the one without running or pending tasks is terminated. */
  lemma OnlyEmptyDrainingHostTerminated()
    ensures
      var draining := [Host("d1", 0, 0, 0), Host("d2", 0, 2, 0)];
      Decide(Consistently("jobs", 90.0, [Host("a", 1, 0, 1)], draining), 50.0).terminations == {"d1"}
  {
    var draining := [Host("d1", 0, 0, 0), Host("d2", 0, 2, 0)];
    assert draining[..1] == [Host("d1", 0, 0, 0)];
    assert draining[..0] == [];
    assert draining[..1][..0] == [];
    assert "arn:" + "d1" == "arn:d1" && "arn:" + "d2" == "arn:d2";
    assert Collect(draining[..1], false) == map["d1" := "arn:d1"];
    var m := Collect(draining, false);
    assert m == map["d1" := "arn:d1", "d2" := "arn:d2"];
    assert RunningTasks("d1", draining) == Some(0);
    assert RunningTasks("d2", draining) == Some(2);
  }
}
