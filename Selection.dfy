/**
 * `scale_in_instance`: one greedy pass over the active hosts that keeps a
 * running best record (free memory, running tasks, id, ARN). Each host is
 * judged by the value of its first `MEMORY` entry in `remainingResources`:
 * the inner loop skips other entries and breaks right after that one.
 */
module Selection {
  import opened Wrappers
  import opened Records

  /** The running best record; `containerInstanceArn` is absent until the first replacement. */
  datatype Candidate = Candidate(id: InstanceId, running: nat, freemem: int, containerInstanceArn: Option<Arn>)

  /** `{'id': '', 'running': 0, 'freemem': 0}`. */
  const Initial := Candidate("", 0, 0, None)

  /** The value the inner loop examines: that of the first `MEMORY` entry, if any. */
  function FirstMemory(res: seq<Resource>): Option<int>
  {
    if res == [] then None
    else if res[0].name == "MEMORY" then Some(res[0].integerValue)
    else FirstMemory(res[1..])
  }

  /** The host has a `MEMORY` entry, so the pass looks at it. */
  predicate Examined(inst: Instance)
  {
    FirstMemory(inst.remainingResources).Some?
  }

  /** The free memory the pass sees for an examined host. */
  function Mem(inst: Instance): int
    requires Examined(inst)
  {
    FirstMemory(inst.remainingResources).value
  }

  /** The record naming `inst` with free memory `v`: all four fields replaced together. */
  function CandidateOf(inst: Instance, v: int): Candidate
  {
    Candidate(inst.ec2InstanceId, inst.runningTasksCount, v, Some(inst.containerInstanceArn))
  }

  /** Free memory `v` with `running` tasks beats `c`: more free memory, or as much and fewer tasks. */
  predicate Beats(v: int, running: nat, c: Candidate)
  {
    v > c.freemem || (v == c.freemem && running < c.running)
  }

  /** One iteration of the outer loop. */
  function Step(c: Candidate, inst: Instance): (r: Candidate)
    ensures r.freemem >= c.freemem
    ensures Examined(inst) && Beats(Mem(inst), inst.runningTasksCount, c) ==> r == CandidateOf(inst, Mem(inst))
    ensures r != c ==>
      (Examined(inst) && Beats(Mem(inst), inst.runningTasksCount, c) && r == CandidateOf(inst, Mem(inst)))
  {
    match FirstMemory(inst.remainingResources)
    case None => c
    case Some(v) => if Beats(v, inst.runningTasksCount, c) then CandidateOf(inst, v) else c
  }

  /** The record after the outer loop has visited every host of `s`, in order. */
  function Select(s: seq<Instance>): Candidate
  {
    if |s| == 0 then Initial else Step(Select(s[..|s| - 1]), s[|s| - 1])
  }

  /** No examined host of `s` beats `c`. */
  ghost predicate Unbeaten(s: seq<Instance>, c: Candidate)
  {
    forall j :: 0 <= j < |s| && Examined(s[j]) ==> !Beats(Mem(s[j]), s[j].runningTasksCount, c)
  }

  /**
   * `s[i]` is the first best host: it beats the initial record, nothing beats
   * it, and it beats every examined host before it.
   */
  ghost predicate FirstBest(s: seq<Instance>, i: int)
  {
    && 0 <= i < |s| && Examined(s[i])
    && Beats(Mem(s[i]), s[i].runningTasksCount, Initial)
    && Unbeaten(s, CandidateOf(s[i], Mem(s[i])))
    && forall j :: 0 <= j < i && Examined(s[j]) ==>
         Beats(Mem(s[i]), s[i].runningTasksCount, CandidateOf(s[j], Mem(s[j])))
  }

  /**
   * The pass ends unbeaten, and either still holds the initial record or names
   * the first best host.
   */
  lemma {:induction false} SelectIsFirstBest(s: seq<Instance>)
    ensures Unbeaten(s, Select(s))
    ensures Select(s) == Initial ||
      (exists i :: FirstBest(s, i) && Select(s) == CandidateOf(s[i], Mem(s[i])))
  {
    if |s| > 0 {
      var p := s[..|s| - 1];
      var x := s[|s| - 1];
      var c := Select(p);
      SelectIsFirstBest(p);
      assert forall j :: 0 <= j < |p| ==> p[j] == s[j];
      if Step(c, x) != c {
        var n := CandidateOf(x, Mem(x));
        forall j | 0 <= j < |s| && Examined(s[j])
          ensures !Beats(Mem(s[j]), s[j].runningTasksCount, n)
        {
          if j < |p| {
            assert !Beats(Mem(p[j]), p[j].runningTasksCount, c);
          }
        }
        assert Beats(Mem(x), x.runningTasksCount, Initial) by {
          if c != Initial {
            var i :| FirstBest(p, i) && c == CandidateOf(p[i], Mem(p[i]));
          }
        }
        forall j | 0 <= j < |s| - 1 && Examined(s[j])
          ensures Beats(Mem(x), x.runningTasksCount, CandidateOf(s[j], Mem(s[j])))
        {
          assert !Beats(Mem(p[j]), p[j].runningTasksCount, c);
        }
        assert FirstBest(s, |s| - 1);
      } else {
        if c != Initial {
          var i :| FirstBest(p, i) && c == CandidateOf(p[i], Mem(p[i]));
          assert FirstBest(s, i);
        }
      }
    }
  }

  /** Two hosts cannot both be the first best one. */
  lemma FirstBestUnique(s: seq<Instance>, i: int, k: int)
    requires FirstBest(s, i) && FirstBest(s, k)
    ensures i == k
  {
  }

  /**
   * The final free memory is the maximum of 0 and of every examined host's
   * first `MEMORY` value; the record is the initial one exactly when no host
   * offers a positive value, and then it carries no ARN.
   */
  lemma SelectMaximum(s: seq<Instance>)
    ensures Select(s).freemem >= 0
    ensures forall j :: 0 <= j < |s| && Examined(s[j]) ==> Mem(s[j]) <= Select(s).freemem
    ensures Select(s).freemem == 0 ||
      (exists j :: 0 <= j < |s| && Examined(s[j]) && Mem(s[j]) == Select(s).freemem)
    ensures Select(s).containerInstanceArn.None? <==>
      (forall j :: 0 <= j < |s| && Examined(s[j]) ==> Mem(s[j]) <= 0)
    ensures Select(s).containerInstanceArn.None? ==> Select(s) == Initial
  {
    SelectIsFirstBest(s);
  }

  /** `scale_in_instance`, with its nested loop and `break`. */
  method ScaleInInstance(active: seq<Instance>) returns (best: Candidate)
    ensures best == Select(active)
    ensures Unbeaten(active, best)
    ensures best == Initial ||
      (exists i :: FirstBest(active, i) && best == CandidateOf(active[i], Mem(active[i])))
  {
    best := Initial;
    var i := 0;
    while i < |active|
      invariant 0 <= i <= |active|
      invariant best == Select(active[..i])
    {
      var inst := active[i];
      var res := inst.remainingResources;
      ghost var before := best;
      var j := 0;
      while j < |res|
        invariant 0 <= j <= |res|
        invariant FirstMemory(res[j..]) == FirstMemory(res)
        invariant best == before
      {
        assert res[j..][1..] == res[j + 1..];
        if res[j].name == "MEMORY" {
          var v := res[j].integerValue;
          if v > best.freemem {
            best := best.(freemem := v, id := inst.ec2InstanceId, running := inst.runningTasksCount,
                          containerInstanceArn := Some(inst.containerInstanceArn));
          } else if v == best.freemem {
            if inst.runningTasksCount < best.running {
              best := best.(freemem := v, id := inst.ec2InstanceId, running := inst.runningTasksCount,
                            containerInstanceArn := Some(inst.containerInstanceArn));
            }
          }
          break;
        }
        j := j + 1;
      }
      assert best == Step(before, inst);
      assert active[..i + 1][..i] == active[..i];
      i := i + 1;
    }
    assert active[..i] == active;
    SelectIsFirstBest(active);
  }
}
