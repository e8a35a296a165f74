/** The SDK descriptors the estimator reads, as plain values: one point-in-time snapshot
    of an account's EBS volumes and EC2 reservations. Only the fields the estimator reads
    are kept; a field the SDK may leave null is an `Option`. */
module Snapshot {
  import opened Wrappers

  /** A resource tag; the SDK allows a null value. */
  datatype Tag = Tag(key: string, value: Option<string>)

  /** `com.amazonaws.services.ec2.model.Volume`. */
  datatype Volume = Volume(
    volumeId: string,
    availabilityZone: string,
    state: string,
    volumeType: string,
    size: int,
    iops: Option<int>,
    tags: seq<Tag>)

  /** `InstanceBlockDeviceMapping`: the id of its EBS device, absent when it has none. */
  datatype BlockDeviceMapping = BlockDeviceMapping(ebsVolumeId: Option<string>)

  /** `com.amazonaws.services.ec2.model.Instance`; `platform` is null for Linux. */
  datatype Instance = Instance(
    availabilityZone: string,
    instanceType: string,
    platform: Option<string>,
    stateName: string,
    stateCode: bv32,  // the 32 bits of the Java `int`
    tags: seq<Tag>,
    blockDeviceMappings: seq<BlockDeviceMapping>)

  datatype Reservation = Reservation(instances: seq<Instance>)

  /** The instances of all reservations, reservation by reservation (the `flatMap` of `getInstances`). */
  function AllInstances(reservations: seq<Reservation>): (r: seq<Instance>)
    ensures forall k, i :: 0 <= k < |reservations| && i in reservations[k].instances ==> i in r
    ensures forall i :: i in r ==> exists k :: 0 <= k < |reservations| && i in reservations[k].instances
  {
    if reservations == [] then []
    else reservations[0].instances + AllInstances(reservations[1..])
  }

  /** One reservation flattens to its own instances, in their order. */
  lemma AllInstancesSingle(r: Reservation)
    ensures AllInstances([r]) == r.instances
  {
    assert [r][1..] == [];
  }

  /** Flattening keeps the reservations' order: the instances of the first reservations
      come first, each block in its own order, repeats included. */
  lemma {:induction false} AllInstancesAppend(a: seq<Reservation>, b: seq<Reservation>)
    ensures AllInstances(a + b) == AllInstances(a) + AllInstances(b)
  {
    if a == [] {
      assert a + b == b;
    } else {
      assert (a + b)[0] == a[0];
      assert (a + b)[1..] == a[1..] + b;
      AllInstancesAppend(a[1..], b);
    }
  }
}
