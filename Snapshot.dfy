/**
 * The per-cluster snapshot: the id-to-ARN maps of idle active hosts and of
 * draining hosts, built by updating a dictionary entry by entry, and the
 * task count lookup the termination sweep uses.
 */
module Snapshot {
  import opened Wrappers
  import opened Records

  /** Whether an instance is written into the map being built. */
  predicate Kept(inst: Instance, idleOnly: bool)
  {
    !idleOnly || Idle(inst)
  }

  /**
   * The dictionary after `update({id: arn})` for every kept instance, in order.
   * `Collect(active, true)` is what `empty_instances` returns and
   * `Collect(draining, false)` what `draining_instances` returns.
   */
  function Collect(s: seq<Instance>, idleOnly: bool): map<InstanceId, Arn>
  {
    if |s| == 0 then map[]
    else
      var m := Collect(s[..|s| - 1], idleOnly);
      var x := s[|s| - 1];
      if Kept(x, idleOnly) then m[x.ec2InstanceId := x.containerInstanceArn] else m
  }

  /** `s[i]` is kept and no later kept instance has its id. */
  ghost predicate LastKeptWithId(s: seq<Instance>, idleOnly: bool, i: int)
  {
    && 0 <= i < |s| && Kept(s[i], idleOnly)
    && forall j :: i < j < |s| && Kept(s[j], idleOnly) ==> s[j].ec2InstanceId != s[i].ec2InstanceId
  }

  /** The keys are exactly the ids of the kept instances. */
  lemma {:induction false} CollectKeys(s: seq<Instance>, idleOnly: bool)
    ensures forall id :: id in Collect(s, idleOnly) <==>
      (exists i :: 0 <= i < |s| && Kept(s[i], idleOnly) && s[i].ec2InstanceId == id)
  {
    if |s| > 0 {
      var p := s[..|s| - 1];
      CollectKeys(p, idleOnly);
      forall id ensures id in Collect(s, idleOnly) <==>
        (exists i :: 0 <= i < |s| && Kept(s[i], idleOnly) && s[i].ec2InstanceId == id)
      {
        if id in Collect(p, idleOnly) {
          var i :| 0 <= i < |p| && Kept(p[i], idleOnly) && p[i].ec2InstanceId == id;
          assert s[i] == p[i];
        }
        if exists i :: 0 <= i < |s| && Kept(s[i], idleOnly) && s[i].ec2InstanceId == id {
          var i :| 0 <= i < |s| && Kept(s[i], idleOnly) && s[i].ec2InstanceId == id;
          if i < |p| {
            assert p[i] == s[i];
          }
        }
      }
    }
  }

  /** Each id maps to the ARN of the last kept instance carrying it: the last update wins. */
  lemma {:induction false} CollectLastWins(s: seq<Instance>, idleOnly: bool)
    ensures forall i :: LastKeptWithId(s, idleOnly, i) ==>
      s[i].ec2InstanceId in Collect(s, idleOnly)
      && Collect(s, idleOnly)[s[i].ec2InstanceId] == s[i].containerInstanceArn
  {
    CollectKeys(s, idleOnly);
    if |s| > 0 {
      var p := s[..|s| - 1];
      CollectLastWins(p, idleOnly);
      CollectKeys(p, idleOnly);
      forall i | LastKeptWithId(s, idleOnly, i)
        ensures Collect(s, idleOnly)[s[i].ec2InstanceId] == s[i].containerInstanceArn
      {
        if i < |p| {
          assert p[i] == s[i];
          assert forall j :: i < j < |p| ==> p[j] == s[j];
          assert LastKeptWithId(p, idleOnly, i);
        }
      }
    }
  }

  /** Both halves of the map's meaning. */
  lemma CollectSpec(s: seq<Instance>, idleOnly: bool)
    ensures forall id :: id in Collect(s, idleOnly) <==>
      (exists i :: 0 <= i < |s| && Kept(s[i], idleOnly) && s[i].ec2InstanceId == id)
    ensures forall i :: LastKeptWithId(s, idleOnly, i) ==>
      Collect(s, idleOnly)[s[i].ec2InstanceId] == s[i].containerInstanceArn
  {
    CollectKeys(s, idleOnly);
    CollectLastWins(s, idleOnly);
  }

  /** Every kept instance's ARN ends up as a value only through its id's last occurrence. */
  lemma CollectValues(s: seq<Instance>, idleOnly: bool, id: InstanceId)
    requires id in Collect(s, idleOnly)
    ensures exists i :: (&& LastKeptWithId(s, idleOnly, i) && s[i].ec2InstanceId == id
                         && Collect(s, idleOnly)[id] == s[i].containerInstanceArn)
  {
    CollectSpec(s, idleOnly);
    var i :| 0 <= i < |s| && Kept(s[i], idleOnly) && s[i].ec2InstanceId == id;
    var last := LastIndex(s, idleOnly, id, i);
  }

  /** The last kept index carrying `id`, at or after `i`. */
  lemma {:induction false} LastIndex(s: seq<Instance>, idleOnly: bool, id: InstanceId, i: int) returns (last: int)
    requires 0 <= i < |s| && Kept(s[i], idleOnly) && s[i].ec2InstanceId == id
    ensures LastKeptWithId(s, idleOnly, last) && s[last].ec2InstanceId == id && i <= last
    decreases |s| - i
  {
    if exists j :: i < j < |s| && Kept(s[j], idleOnly) && s[j].ec2InstanceId == id {
      var j :| i < j < |s| && Kept(s[j], idleOnly) && s[j].ec2InstanceId == id;
      last := LastIndex(s, idleOnly, id, j);
    } else {
      last := i;
    }
  }

  /** `empty_instances`: the id-to-ARN map of the idle active hosts. */
  method EmptyInstances(active: seq<Instance>) returns (m: map<InstanceId, Arn>)
    ensures m == Collect(active, true)
    ensures forall id :: id in m <==>
      (exists i :: 0 <= i < |active| && Idle(active[i]) && active[i].ec2InstanceId == id)
    ensures forall i :: LastKeptWithId(active, true, i) ==>
      m[active[i].ec2InstanceId] == active[i].containerInstanceArn
  {
    m := map[];
    var i := 0;
    while i < |active|
      invariant 0 <= i <= |active|
      invariant m == Collect(active[..i], true)
    {
      var inst := active[i];
      if inst.runningTasksCount == 0 && inst.pendingTasksCount == 0 {
        m := m[inst.ec2InstanceId := inst.containerInstanceArn];
      }
      assert active[..i + 1][..i] == active[..i];
      i := i + 1;
    }
    assert active[..i] == active;
    CollectSpec(active, true);
  }

  /** `draining_instances`: the id-to-ARN map of all draining hosts. */
  method DrainingInstances(draining: seq<Instance>) returns (m: map<InstanceId, Arn>)
    ensures m == Collect(draining, false)
    ensures forall id :: id in m <==>
      (exists i :: 0 <= i < |draining| && draining[i].ec2InstanceId == id)
    ensures forall i :: LastKeptWithId(draining, false, i) ==>
      m[draining[i].ec2InstanceId] == draining[i].containerInstanceArn
  {
    m := map[];
    var i := 0;
    while i < |draining|
      invariant 0 <= i <= |draining|
      invariant m == Collect(draining[..i], false)
    {
      var inst := draining[i];
      m := m[inst.ec2InstanceId := inst.containerInstanceArn];
      assert draining[..i + 1][..i] == draining[..i];
      i := i + 1;
    }
    assert draining[..i] == draining;
    CollectSpec(draining, false);
  }

  /** `s[i]` is the first instance carrying `id`. */
  ghost predicate FirstWithId(s: seq<Instance>, id: InstanceId, i: int)
  {
    0 <= i < |s| && s[i].ec2InstanceId == id && forall j :: 0 <= j < i ==> s[j].ec2InstanceId != id
  }

  /** `running_tasks`: running plus pending tasks of the first instance with the id; None if none has it. */
  function RunningTasks(id: InstanceId, described: seq<Instance>): Option<nat>
  {
    if described == [] then None
    else if described[0].ec2InstanceId == id then
      Some(described[0].runningTasksCount + described[0].pendingTasksCount)
    else RunningTasks(id, described[1..])
  }

  /** The lookup finds the first host with the id, and fails only when no host has it. */
  lemma {:induction false} RunningTasksSpec(id: InstanceId, described: seq<Instance>)
    ensures RunningTasks(id, described).None? <==>
      (forall i :: 0 <= i < |described| ==> described[i].ec2InstanceId != id)
    ensures RunningTasks(id, described).Some? ==>
      (exists i :: FirstWithId(described, id, i)
                   && RunningTasks(id, described).value
                      == described[i].runningTasksCount + described[i].pendingTasksCount)
  {
    if described == [] {
    } else if described[0].ec2InstanceId == id {
      assert FirstWithId(described, id, 0);
    } else {
      var r := RunningTasks(id, described[1..]);
      RunningTasksSpec(id, described[1..]);
      assert forall i :: 1 <= i < |described| ==> described[i] == described[1..][i - 1];
      if r.Some? {
        var i :| FirstWithId(described[1..], id, i)
          && r.value == described[1..][i].runningTasksCount + described[1..][i].pendingTasksCount;
        assert FirstWithId(described, id, i + 1);
      }
    }
  }

  /** `not running_tasks(...)`: true for zero tasks and for an id that was not found. */
  predicate NoTasks(count: Option<nat>)
  {
    count.None? || count.value == 0
  }

  /** Every draining id is found again by `running_tasks` in the list it was collected from. */
  lemma DrainingIdsAreFound(draining: seq<Instance>, id: InstanceId)
    requires id in Collect(draining, false)
    ensures RunningTasks(id, draining).Some?
  {
    CollectSpec(draining, false);
    RunningTasksSpec(id, draining);
  }
}
