/**
 * The read-only lookups over cluster and autoscaling inventory: the cluster
 * exclusion filter, the short cluster name, the autoscaling group bound to a
 * cluster by its `Name` tag, and whether that group may shrink.
 */
module Inventory {
  import opened Wrappers
  import opened Records
  import opened Text

  /** The managed clusters: the listed ARNs, in order, minus those containing `EcsAvoidStr`. */
  function Clusters(clusterArns: seq<Arn>): (r: seq<Arn>)
    ensures |r| <= |clusterArns|
    ensures forall a :: a in r <==> a in clusterArns && !Contains(a, EcsAvoidStr)
  {
    if clusterArns == [] then []
    else
      (if Contains(clusterArns[0], EcsAvoidStr) then [] else [clusterArns[0]])
      + Clusters(clusterArns[1..])
  }

  /** With nothing to exclude, every listed cluster is managed, in the listed order. */
  lemma {:induction false} ClustersKeepsAll(clusterArns: seq<Arn>)
    requires forall k :: 0 <= k < |clusterArns| ==> !Contains(clusterArns[k], EcsAvoidStr)
    ensures Clusters(clusterArns) == clusterArns
  {
    if clusterArns != [] {
      ClustersKeepsAll(clusterArns[1..]);
    }
  }

  /** A single listed ARN is managed exactly when it does not contain `EcsAvoidStr`. */
  lemma ClustersSingle(clusterArn: Arn)
    ensures Clusters([clusterArn]) == if Contains(clusterArn, EcsAvoidStr) then [] else [clusterArn]
  {
  }

  /**
   * The filter works ARN by ARN: the managed clusters of two listings are those of
   * the first followed by those of the second, so order and repeats are kept.
   */
  lemma {:induction false} ClustersAppend(a: seq<Arn>, b: seq<Arn>)
    ensures Clusters(a + b) == Clusters(a) + Clusters(b)
  {
    if a == [] {
      assert a + b == b;
    } else {
      assert (a + b)[0] == a[0];
      assert (a + b)[1..] == a[1..] + b;
      ClustersAppend(a[1..], b);
    }
  }

  /** `cluster.split('/')[1]`; None where Python raises IndexError (no '/'). */
  function ClusterName(cluster: Arn): (r: Option<string>)
    ensures r.None? <==> '/' !in cluster
    ensures r.Some? ==> '/' !in r.value
  {
    var parts := Split(cluster, '/');
    if |parts| >= 2 then
      SplitPiecesOmitSeparator(cluster, '/');
      Some(parts[1])
    else
      JoinSplit(cluster, '/');
      None
  }

  /** The name is the second '/'-separated piece of the ARN. */
  lemma ClusterNameOfJoin(parts: seq<string>)
    requires |parts| >= 2
    requires forall k :: 0 <= k < |parts| ==> '/' !in parts[k]
    ensures ClusterName(Join(parts, '/')) == Some(parts[1])
  {
    SplitJoin(parts, '/');
  }

  /** A tag binds its group to `clusterName`. */
  predicate Matches(tag: Tag, clusterName: string)
  {
    tag.key == "Name" && FirstToken(tag.value) == clusterName
  }

  /** The tag at `k` is the first of `tags` that matches `clusterName`. */
  ghost predicate FirstTagMatch(tags: seq<Tag>, clusterName: string, k: int)
  {
    && 0 <= k < |tags| && Matches(tags[k], clusterName)
    && forall j :: 0 <= j < k ==> !Matches(tags[j], clusterName)
  }

  /** The ResourceId of the first matching tag of one group's tag list. */
  function FindTag(tags: seq<Tag>, clusterName: string): Option<string>
  {
    if tags == [] then None
    else if Matches(tags[0], clusterName) then Some(tags[0].resourceId)
    else FindTag(tags[1..], clusterName)
  }

  lemma {:induction false} FindTagSpec(tags: seq<Tag>, clusterName: string)
    ensures FindTag(tags, clusterName).None? <==>
      (forall k :: 0 <= k < |tags| ==> !Matches(tags[k], clusterName))
    ensures FindTag(tags, clusterName).Some? ==>
      (exists k :: FirstTagMatch(tags, clusterName, k)
                   && FindTag(tags, clusterName).value == tags[k].resourceId)
  {
    if tags == [] {
    } else if Matches(tags[0], clusterName) {
      assert FirstTagMatch(tags, clusterName, 0);
    } else {
      var rest := tags[1..];
      FindTagSpec(rest, clusterName);
      assert forall k :: 1 <= k < |tags| ==> tags[k] == rest[k - 1];
      if FindTag(rest, clusterName).Some? {
        var k :| FirstTagMatch(rest, clusterName, k)
          && FindTag(rest, clusterName).value == rest[k].resourceId;
        assert FirstTagMatch(tags, clusterName, k + 1);
      }
    }
  }

  /** The tag at `(i, k)` is the first match in group-then-tag order. */
  ghost predicate FirstMatch(groups: seq<Group>, clusterName: string, i: int, k: int)
  {
    && 0 <= i < |groups|
    && FirstTagMatch(groups[i].tags, clusterName, k)
    && (forall g, j :: 0 <= g < i && 0 <= j < |groups[g].tags| ==> !Matches(groups[g].tags[j], clusterName))
  }

  /** There is at most one first match. */
  lemma FirstMatchUnique(groups: seq<Group>, clusterName: string, i: int, k: int, i': int, k': int)
    requires FirstMatch(groups, clusterName, i, k) && FirstMatch(groups, clusterName, i', k')
    ensures i == i' && k == k'
  {
  }

  /** `find_asg`: the ResourceId of the first `Name` tag whose value's first token is the cluster name. */
  function FindAsg(groups: seq<Group>, clusterName: string): Option<string>
  {
    if groups == [] then None
    else
      match FindTag(groups[0].tags, clusterName)
      case Some(id) => Some(id)
      case None => FindAsg(groups[1..], clusterName)
  }

  lemma {:induction false} FindAsgSpec(groups: seq<Group>, clusterName: string)
    ensures FindAsg(groups, clusterName).None? <==>
      (forall g, j :: 0 <= g < |groups| && 0 <= j < |groups[g].tags| ==> !Matches(groups[g].tags[j], clusterName))
    ensures FindAsg(groups, clusterName).Some? ==>
      (exists i, k :: FirstMatch(groups, clusterName, i, k)
                      && FindAsg(groups, clusterName).value == groups[i].tags[k].resourceId)
  {
    if groups != [] {
      FindTagSpec(groups[0].tags, clusterName);
      if FindTag(groups[0].tags, clusterName).Some? {
        var k :| FirstTagMatch(groups[0].tags, clusterName, k)
          && FindTag(groups[0].tags, clusterName).value == groups[0].tags[k].resourceId;
        assert FirstMatch(groups, clusterName, 0, k);
      } else {
        var rest := groups[1..];
        FindAsgSpec(rest, clusterName);
        assert forall g :: 1 <= g < |groups| ==> groups[g] == rest[g - 1];
        if FindAsg(rest, clusterName).Some? {
          var i, k :| FirstMatch(rest, clusterName, i, k)
            && FindAsg(rest, clusterName).value == rest[i].tags[k].resourceId;
          assert FirstMatch(groups, clusterName, i + 1, k);
        }
      }
    }
  }

  /** Index of the first group named `name`. */
  function FirstGroupNamed(groups: seq<Group>, name: string): (r: Option<nat>)
    ensures r.None? <==> forall g :: 0 <= g < |groups| ==> groups[g].autoScalingGroupName != name
    ensures r.Some? ==>
      (&& r.value < |groups| && groups[r.value].autoScalingGroupName == name
       && forall g :: 0 <= g < r.value ==> groups[g].autoScalingGroupName != name)
  {
    if groups == [] then None
    else if groups[0].autoScalingGroupName == name then Some(0)
    else
      match FirstGroupNamed(groups[1..], name)
      case None => None
      case Some(g) => Some(g + 1)
  }

  /**
   * `asg_scaleable`: the group found through the cluster's `Name` tag (the first group with
   * that name) has `MinSize < DesiredCapacity`. False when no tag matches or no group has
   * the tagged name.
   */
  function AsgScaleable(groups: seq<Group>, clusterName: string): bool
  {
    match FindAsg(groups, clusterName)
    case None => false
    case Some(asg) =>
      match FirstGroupNamed(groups, asg)
      case None => false
      case Some(g) => groups[g].minSize < groups[g].desiredCapacity
  }

  /**
   * A cluster is scaleable exactly when its first matching tag names a group whose
   * first occurrence has room to shrink.
   */
  lemma AsgScaleableSpec(groups: seq<Group>, clusterName: string)
    ensures AsgScaleable(groups, clusterName) <==>
      (exists i, k, g :: && FirstMatch(groups, clusterName, i, k)
                         && FirstGroupNamed(groups, groups[i].tags[k].resourceId) == Some(g)
                         && groups[g].minSize < groups[g].desiredCapacity)
  {
    FindAsgSpec(groups, clusterName);
    if exists i, k, g :: && FirstMatch(groups, clusterName, i, k)
                         && FirstGroupNamed(groups, groups[i].tags[k].resourceId) == Some(g)
                         && groups[g].minSize < groups[g].desiredCapacity
    {
      var i, k, g :| && FirstMatch(groups, clusterName, i, k)
                     && FirstGroupNamed(groups, groups[i].tags[k].resourceId) == Some(g)
                     && groups[g].minSize < groups[g].desiredCapacity;
      var i', k' :| FirstMatch(groups, clusterName, i', k')
        && FindAsg(groups, clusterName).value == groups[i'].tags[k'].resourceId;
      FirstMatchUnique(groups, clusterName, i, k, i', k');
    }
  }

  /** Without a group bound to the cluster, the cluster is never scaleable. */
  lemma NoGroupNotScaleable(groups: seq<Group>, clusterName: string)
    requires forall g, j :: 0 <= g < |groups| && 0 <= j < |groups[g].tags| ==>
      !Matches(groups[g].tags[j], clusterName)
    ensures !AsgScaleable(groups, clusterName)
  {
    FindAsgSpec(groups, clusterName);
  }
}
