/**
 * The records the scale-in engine reads from the container service and the
 * autoscaling service, and the engine's configured thresholds.
 */
module Records {

  type InstanceId = string
  type Arn = string

  /** Scale-in thresholds, in percent. */
  const ScaleInCpuTh: real := 30.0
  const ScaleInMemTh: real := 60.0
  const FutureMemTh: real := 70.0

  /** Clusters whose ARN contains this substring are never managed. */
  const EcsAvoidStr: string := "awseb"

  /** One entry of a container instance's `remainingResources`. */
  datatype Resource = Resource(name: string, integerValue: int)

  /** A described container instance. */
  datatype Instance = Instance(
    ec2InstanceId: InstanceId,
    containerInstanceArn: Arn,
    runningTasksCount: nat,
    pendingTasksCount: nat,
    remainingResources: seq<Resource>)

  /** A host with neither running nor pending tasks. */
  predicate Idle(inst: Instance)
  {
    inst.runningTasksCount == 0 && inst.pendingTasksCount == 0
  }

  /** One tag of an autoscaling group. */
  datatype Tag = Tag(key: string, value: string, resourceId: string)

  /** One autoscaling group as `describe_auto_scaling_groups` returns it. */
  datatype Group = Group(
    autoScalingGroupName: string,
    minSize: int,
    desiredCapacity: int,
    tags: seq<Tag>)
}
