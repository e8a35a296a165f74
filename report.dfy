/** One run of `EC2CostEstimator.main` without its printing: the snapshot priced, the four
    listings and the cost summary. */
module Report {
  import opened Wrappers
  import opened Errors
  import opened Snapshot
  import opened Text
  import opened Sequences
  import opened Ebs
  import opened Pricing
  import opened Instances
  import opened Estimator

  /** The snapshot with every volume and every instance costed. */
  datatype PricedSnapshot = PricedSnapshot(volumes: seq<CostedVolume>, instances: seq<CostedInstance>)

  /** `getEbsVolumes`: one `EBSVolume` per SDK volume, in order. */
  function EbsVolumes(vs: seq<Volume>): (r: seq<EbsVolume>)
    ensures |r| == |vs|
  {
    seq(|vs|, i requires 0 <= i < |vs| => NewEbsVolume(vs[i]))
  }

  /** The volumes priced, the instances built against them and costed: what the four
      listings print, or the failure that stops the run. */
  function PriceSnapshot(volumes: seq<Volume>, reservations: seq<Reservation>): (r: Result<PricedSnapshot, Error>)
  {
    var costed :- PriceVolumes(EbsVolumes(volumes));
    var priced :- GetInstances(costed, reservations);
    var instances :- CostInstances(priced);
    Ok(PricedSnapshot(costed, instances))
  }

  // ---------------------------------------------------------------------------------------
  // When a run succeeds, in terms of the snapshot alone.

  /** `getCostPerMonth` can price the volume: a known type, and IOPS present for `io1`. */
  predicate VolumePriceable(v: Volume) {
    KnownType(v.volumeType) && (v.volumeType == "io1" ==> v.iops.Some?)
  }

  /** The snapshot holds a volume with this id. */
  predicate HasVolume(volumes: seq<Volume>, id: string) {
    exists i :: 0 <= i < |volumes| && volumes[i].volumeId == id
  }

  /** Every volume is priceable. */
  predicate VolumesPriceable(volumes: seq<Volume>) {
    forall i :: 0 <= i < |volumes| ==> VolumePriceable(volumes[i])
  }

  /** No volume id is listed twice. */
  predicate DistinctVolumeIds(volumes: seq<Volume>) {
    forall i, j :: 0 <= i < j < |volumes| ==> volumes[i].volumeId != volumes[j].volumeId
  }

  /** Every mapping of the instance is an EBS device of the snapshot. */
  predicate MappingsResolve(inst: Instance, volumes: seq<Volume>) {
    forall m :: 0 <= m < |inst.blockDeviceMappings| ==>
      inst.blockDeviceMappings[m].ebsVolumeId.Some?
      && HasVolume(volumes, inst.blockDeviceMappings[m].ebsVolumeId.value)
  }

  /** If the instance runs, the catalog holds its type for its platform. */
  predicate Cataloged(inst: Instance) {
    IsRunningCode(inst.stateCode) ==>
      inst.instanceType in LinuxPricePerHour
      && (inst.platform.None? || EqualsIgnoreCase(inst.platform.value, "windows"))
  }

  predicate AllMappingsResolve(insts: seq<Instance>, volumes: seq<Volume>) {
    forall k :: 0 <= k < |insts| ==> MappingsResolve(insts[k], volumes)
  }

  predicate AllCataloged(insts: seq<Instance>) {
    forall k :: 0 <= k < |insts| ==> Cataloged(insts[k])
  }

  /** A snapshot the estimator can cost: every volume priceable, no volume id twice, every
      mapping resolved and every running instance in the catalog. */
  predicate Priceable(volumes: seq<Volume>, reservations: seq<Reservation>) {
    && VolumesPriceable(volumes)
    && DistinctVolumeIds(volumes)
    && AllMappingsResolve(AllInstances(reservations), volumes)
    && AllCataloged(AllInstances(reservations))
  }

  /** Pricing the volumes fails exactly on an unpriceable volume; otherwise every volume
      carries the cost `getCostPerMonth` gives it. */
  lemma PriceVolumesSucceeds(volumes: seq<Volume>)
    ensures PriceVolumes(EbsVolumes(volumes)).Ok? <==> VolumesPriceable(volumes)
    ensures PriceVolumes(EbsVolumes(volumes)).Ok? ==>
      var costed := PriceVolumes(EbsVolumes(volumes)).value;
      |costed| == |volumes|
      && forall i :: 0 <= i < |volumes| ==> costed[i].volume == NewEbsVolume(volumes[i]) && CostIsCorrect(costed[i])
  {
    var ebs := EbsVolumes(volumes);
    assert forall i :: 0 <= i < |volumes| ==> ebs[i] == NewEbsVolume(volumes[i]);
  }

  /** The costed volumes keep the ids of the snapshot, index by index. */
  lemma CostedIds(volumes: seq<Volume>, costed: seq<CostedVolume>)
    requires |costed| == |volumes|
    requires forall i :: 0 <= i < |volumes| ==> costed[i].volume == NewEbsVolume(volumes[i])
    ensures DistinctIds(costed) <==> DistinctVolumeIds(volumes)
    ensures forall id :: id in Ids(costed) <==> HasVolume(volumes, id)
  {
    assert forall i :: 0 <= i < |volumes| ==> costed[i].volume.volumeId == volumes[i].volumeId;
    forall id | HasVolume(volumes, id) ensures id in Ids(costed) {
      var i :| 0 <= i < |volumes| && volumes[i].volumeId == id;
      assert costed[i].volume.volumeId == id;
    }
  }

  /** Building the instances succeeds exactly when every mapping names a volume of the snapshot. */
  lemma NewPricedInstancesSucceeds(volumes: seq<Volume>, insts: seq<Instance>, byId: map<string, CostedVolume>)
    requires forall id :: id in byId <==> HasVolume(volumes, id)
    ensures NewPricedInstances(insts, byId).Ok? <==> AllMappingsResolve(insts, volumes)
  {
    forall k | 0 <= k < |insts|
      ensures NewPricedInstance(insts[k], byId).Ok? <==> MappingsResolve(insts[k], volumes)
    {
      var ms := insts[k].blockDeviceMappings;
      assert (forall m :: 0 <= m < |ms| ==> Resolves(ms[m], byId)) <==> MappingsResolve(insts[k], volumes);
    }
  }

  /** Costing the built instances succeeds exactly when every running one is in the catalog. */
  lemma CostInstancesSucceeds(insts: seq<Instance>, byId: map<string, CostedVolume>)
    requires NewPricedInstances(insts, byId).Ok?
    ensures CostInstances(NewPricedInstances(insts, byId).value).Ok? <==> AllCataloged(insts)
  {
    var ps := NewPricedInstances(insts, byId).value;
    forall k | 0 <= k < |insts|
      ensures InstanceCostPerMonth(ps[k]).Ok? <==> Cataloged(insts[k])
    {
      NewPricedInstanceFields(insts[k], byId);
    }
  }

  /** A run fails exactly on a snapshot that is not priceable: an unknown volume type, an
      `io1` volume without IOPS, a volume id listed twice, a mapping without an EBS device or
      naming a volume the snapshot lacks, or a running instance the catalog cannot price. */
  lemma PriceSnapshotSucceeds(volumes: seq<Volume>, reservations: seq<Reservation>)
    ensures PriceSnapshot(volumes, reservations).Ok? <==> Priceable(volumes, reservations)
  {
    PriceVolumesSucceeds(volumes);
    var insts := AllInstances(reservations);
    var vs := PriceVolumes(EbsVolumes(volumes));
    if vs.Ok? {
      var costed := vs.value;
      CostedIds(volumes, costed);
      if DistinctIds(costed) {
        var byId := IndexById(costed).value;
        NewPricedInstancesSucceeds(volumes, insts, byId);
        if NewPricedInstances(insts, byId).Ok? {
          CostInstancesSucceeds(insts, byId);
        }
      }
    }
  }

  /** The priced snapshot holds each SDK volume as an `EBSVolume`, in snapshot order, with
      the cost `getCostPerMonth` gives it, and no volume id twice. */
  lemma SnapshotVolumes(volumes: seq<Volume>, reservations: seq<Reservation>, snap: PricedSnapshot)
    requires PriceSnapshot(volumes, reservations) == Ok(snap)
    ensures |snap.volumes| == |volumes|
    ensures forall i :: 0 <= i < |volumes| ==>
      snap.volumes[i].volume == NewEbsVolume(volumes[i]) && CostIsCorrect(snap.volumes[i])
    ensures DistinctIds(snap.volumes)
  {
    var costed := PriceVolumes(EbsVolumes(volumes));
    assert costed.Ok? && GetInstances(costed.value, reservations).Ok? && snap.volumes == costed.value;
    PriceVolumesSucceeds(volumes);
  }

  /** The priced snapshot holds each instance of each reservation, in order, as the
      `PricedInstance` built against the volume index, with the compute cost
      `getInstanceCostPerMonth` gives it. */
  lemma SnapshotInstances(volumes: seq<Volume>, reservations: seq<Reservation>, snap: PricedSnapshot)
    requires PriceSnapshot(volumes, reservations) == Ok(snap)
    ensures IndexById(snap.volumes).Ok?
    ensures var insts, byId := AllInstances(reservations), IndexById(snap.volumes).value;
      && |snap.instances| == |insts|
      && forall k :: 0 <= k < |insts| ==>
           Ok(snap.instances[k].instance) == NewPricedInstance(insts[k], byId)
           && InstanceCostIsCorrect(snap.instances[k])
  {
  }

  /** Every volume a priced instance links is a volume of the snapshot, with the cost
      `getCostPerMonth` gives it: an instance's volume cost is the sum of `getCostPerMonth`
      over its linked volumes. */
  lemma LinkedVolumesArePriced(volumes: seq<Volume>, reservations: seq<Reservation>, snap: PricedSnapshot)
    requires PriceSnapshot(volumes, reservations) == Ok(snap)
    ensures forall c, v :: c in snap.instances && v in c.instance.volumes ==> v in snap.volumes && CostIsCorrect(v)
  {
    SnapshotVolumes(volumes, reservations, snap);
    SnapshotInstances(volumes, reservations, snap);
    BuiltInstancesLinkListedVolumes(snap.volumes, AllInstances(reservations), snap.instances);
  }

  /** What `main` computes before printing. */
  datatype CostReport = CostReport(
    idleVolumes: seq<CostedVolume>,
    attachedVolumes: seq<CostedVolume>,
    stoppedInstances: seq<CostedInstance>,
    runningInstances: seq<CostedInstance>,
    unattachedCost: real,
    zoneCosts: map<string, ZoneCosts>,
    totalCost: real)

  /** `report` is what `main` prints for the priced snapshot: the idle and the attached
      volumes and the stopped and the running instances, each listing sorted stably by
      descending cost; the cost of the idle volumes; one summary line per zone; and the
      grand total. */
  ghost predicate Reports(snap: PricedSnapshot, report: CostReport) {
    && StableSortOf(report.idleVolumes, Filter(snap.volumes, IsIdle), Cost)
    && StableSortOf(report.attachedVolumes, Filter(snap.volumes, IsAttached), Cost)
    && StableSortOf(report.stoppedInstances, Filter(snap.instances, Stopped), TotalCostPerMonth)
    && StableSortOf(report.runningInstances, Filter(snap.instances, Running), TotalCostPerMonth)
    && report.unattachedCost == Sum(Filter(snap.volumes, IsIdle), Cost)
    && report.zoneCosts == ZoneSummary(snap.instances, Zones(snap.instances))
    && report.totalCost == report.unattachedCost + Sum(snap.instances, TotalCostPerMonth)
  }

  /** `main` without its printing: price the snapshot, then list, sum and summarise. It
      fails exactly on a snapshot that is not priceable. */
  method Estimate(volumes: seq<Volume>, reservations: seq<Reservation>) returns (r: Result<CostReport, Error>)
    ensures r.Ok? <==> PriceSnapshot(volumes, reservations).Ok?
    ensures r.Ok? <==> Priceable(volumes, reservations)
    ensures r.Err? ==> PriceSnapshot(volumes, reservations) == Err(r.error)
    ensures r.Ok? ==> Reports(PriceSnapshot(volumes, reservations).value, r.value)
  {
    PriceSnapshotSucceeds(volumes, reservations);
    var priced := PriceSnapshot(volumes, reservations);
    if priced.Err? {
      return Err(priced.error);
    }
    var snap := priced.value;
    var idle := Filter(snap.volumes, IsIdle);
    var attached := Filter(snap.volumes, IsAttached);
    var stopped := Filter(snap.instances, Stopped);
    var running := Filter(snap.instances, Running);
    SortDescendingIsStableSort(idle, Cost);
    SortDescendingIsStableSort(attached, Cost);
    SortDescendingIsStableSort(stopped, TotalCostPerMonth);
    SortDescendingIsStableSort(running, TotalCostPerMonth);
    var unattachedCost := Sum(idle, Cost);
    var zoneCosts, totalCost := CostSummary(unattachedCost, snap.instances);
    r := Ok(CostReport(
      SortDescending(idle, Cost), SortDescending(attached, Cost),
      SortDescending(stopped, TotalCostPerMonth), SortDescending(running, TotalCostPerMonth),
      unattachedCost, zoneCosts, totalCost));
  }

  /** A listing holds exactly the elements the filter keeps. */
  lemma ListingMembers<T>(s: seq<T>, p: T -> bool, listing: seq<T>, key: T -> real)
    requires StableSortOf(listing, Filter(s, p), key)
    ensures forall x :: x in listing <==> x in s && p(x)
  {
    FilterMembers(s, p);
    forall x ensures x in listing <==> x in Filter(s, p) {
      assert x in listing <==> x in multiset(listing);
      assert x in Filter(s, p) <==> x in multiset(Filter(s, p));
    }
  }

  /** The idle and the attached listings together hold every volume exactly once. */
  lemma VolumeListingsPartition(snap: PricedSnapshot, report: CostReport)
    requires Reports(snap, report)
    ensures multiset(report.idleVolumes) + multiset(report.attachedVolumes) == multiset(snap.volumes)
    ensures forall c :: c in report.idleVolumes <==> c in snap.volumes && !c.volume.isInUse
    ensures forall c :: c in report.attachedVolumes <==> c in snap.volumes && c.volume.isInUse
  {
    FilterPartition(snap.volumes, IsIdle, IsAttached);
    ListingMembers(snap.volumes, IsIdle, report.idleVolumes, Cost);
    ListingMembers(snap.volumes, IsAttached, report.attachedVolumes, Cost);
  }

  /** The stopped and the running listings together hold every instance exactly once. */
  lemma InstanceListingsPartition(snap: PricedSnapshot, report: CostReport)
    requires Reports(snap, report)
    ensures multiset(report.stoppedInstances) + multiset(report.runningInstances) == multiset(snap.instances)
    ensures forall c :: c in report.stoppedInstances <==> c in snap.instances && !c.instance.isRunning
    ensures forall c :: c in report.runningInstances <==> c in snap.instances && c.instance.isRunning
  {
    FilterPartition(snap.instances, Stopped, Running);
    ListingMembers(snap.instances, Stopped, report.stoppedInstances, TotalCostPerMonth);
    ListingMembers(snap.instances, Running, report.runningInstances, TotalCostPerMonth);
  }

  /** The grand total is the idle listing plus the two instance listings, summed in any
      order: attached volumes are counted only through the instances that link them. */
  lemma GrandTotalFromListings(snap: PricedSnapshot, report: CostReport)
    requires Reports(snap, report)
    ensures report.totalCost == Sum(report.idleVolumes, Cost)
      + Sum(report.stoppedInstances, TotalCostPerMonth) + Sum(report.runningInstances, TotalCostPerMonth)
  {
    SumPermutation(report.idleVolumes, Filter(snap.volumes, IsIdle), Cost);
    SumPermutation(report.stoppedInstances, Filter(snap.instances, Stopped), TotalCostPerMonth);
    SumPermutation(report.runningInstances, Filter(snap.instances, Running), TotalCostPerMonth);
    SumPartition(snap.instances, TotalCostPerMonth, Stopped, Running);
  }

  /** The volumes the instances link, instance by instance. */
  function Linked(cs: seq<CostedInstance>): seq<CostedVolume> {
    if cs == [] then [] else cs[0].instance.volumes + Linked(cs[1..])
  }

  /** The compute part of an instance's total. */
  function ComputeCost(c: CostedInstance): real {
    c.instanceCostPerMonth
  }

  /** The instances' totals are their linked volumes plus their compute costs. */
  lemma {:induction false} InstanceTotalsSplit(cs: seq<CostedInstance>)
    ensures Sum(cs, TotalCostPerMonth) == Sum(Linked(cs), Cost) + Sum(cs, ComputeCost)
  {
    if cs != [] {
      InstanceTotalsSplit(cs[1..]);
      SumAppend(cs[0].instance.volumes, Linked(cs[1..]), Cost);
    }
  }

  /** No volume counted twice and none left out: when the instances together link exactly
      the attached volumes, each once, the grand total is every volume's cost plus every
      instance's compute cost. Without that hypothesis the totals differ, as in Java: an
      attached volume no listed instance links is not counted, and a volume linked twice,
      or an idle one that is linked, is counted twice. */
  lemma GrandTotalCountsEachVolumeOnce(snap: PricedSnapshot, report: CostReport)
    requires Reports(snap, report)
    requires multiset(Linked(snap.instances)) == multiset(Filter(snap.volumes, IsAttached))
    ensures report.totalCost == Sum(snap.volumes, Cost) + Sum(snap.instances, ComputeCost)
  {
    InstanceTotalsSplit(snap.instances);
    SumPermutation(Linked(snap.instances), Filter(snap.volumes, IsAttached), Cost);
    SumPartition(snap.volumes, Cost, IsIdle, IsAttached);
  }

  /** A running Windows `m4.large`, its platform spelt "Windows", with no volumes, costs
      730 hours at the Windows price 0.246: 179.58 a month. */
  lemma WorkedWindowsInstance(c: CostedInstance)
    requires c.instance.isRunning && c.instance.instanceType == "m4.large"
    requires c.instance.platform == Some("Windows") && c.instance.volumes == []
    requires InstanceCostIsCorrect(c)
    ensures c.instanceCostPerMonth == 179.58
    ensures TotalCostPerMonth(c) == 179.58
  {
    assert EqualsIgnoreCase("Windows", "windows");
    assert WindowsPricePerHour["m4.large"] == 0.246;
  }

  /** A worked month: an idle 100 GB `standard` volume (5.00), and a running Linux
      `m4.large` (87.60) with a 50 GB `io1` volume of 1000 IOPS attached (71.25), so the
      instance costs 158.85 and the grand total is 163.85. */
  lemma WorkedMonth(idle: CostedVolume, attached: CostedVolume, running: CostedInstance)
    requires idle.volume.volumeType == "standard" && idle.volume.sizeInGB == 100 && CostIsCorrect(idle)
    requires attached.volume.volumeType == "io1" && attached.volume.sizeInGB == 50
    requires attached.volume.iops == Some(1000) && CostIsCorrect(attached)
    requires running.instance.isRunning && running.instance.instanceType == "m4.large"
    requires running.instance.platform.None? && running.instance.volumes == [attached]
    requires InstanceCostIsCorrect(running)
    ensures running.instanceCostPerMonth == 87.60
    ensures TotalCostPerMonth(running) == 158.85
    ensures Sum([idle], Cost) + Sum([running], TotalCostPerMonth) == 163.85
  {
    assert LinuxPricePerHour["m4.large"] == 0.12;
    assert [attached][1..] == [];
    assert attached.costPerMonth == 71.25;
    assert Sum([attached], Cost) == 71.25;
    assert VolumeCostPerMonth(running.instance) == 71.25;
    assert running.instanceCostPerMonth == 87.60;
  }

  /** The worked month as a report: with the standard volume idle and the io1 volume
      attached to the running instance, the unattached cost is 5.00, the instance's zone
      has one line (158.85 running, nothing stopped) and the grand total is 163.85. */
  lemma WorkedMonthReport(idle: CostedVolume, attached: CostedVolume, running: CostedInstance, report: CostReport)
    requires idle.volume.volumeType == "standard" && idle.volume.sizeInGB == 100 && CostIsCorrect(idle)
    requires attached.volume.volumeType == "io1" && attached.volume.sizeInGB == 50
    requires attached.volume.iops == Some(1000) && CostIsCorrect(attached)
    requires !idle.volume.isInUse && attached.volume.isInUse
    requires running.instance.isRunning && running.instance.instanceType == "m4.large"
    requires running.instance.platform.None? && running.instance.volumes == [attached]
    requires InstanceCostIsCorrect(running)
    requires Reports(PricedSnapshot([idle, attached], [running]), report)
    ensures report.unattachedCost == 5.00
    ensures report.zoneCosts == map[running.instance.availabilityZone := ZoneCosts(158.85, 0.0)]
    ensures report.totalCost == 163.85
  {
    WorkedMonth(idle, attached, running);
    assert [idle, attached][1..] == [attached];
    assert [attached][1..] == [];
    assert Filter([idle, attached], IsIdle) == [idle];
    SingleRunningZone(running);
  }

  /** A lone running instance gives one summary line, for its zone, with its total as the
      running sum and nothing stopped. */
  lemma SingleRunningZone(c: CostedInstance)
    requires c.instance.isRunning
    ensures ZoneSummary([c], Zones([c])) == map[c.instance.availabilityZone := ZoneCosts(TotalCostPerMonth(c), 0.0)]
  {
    var z := c.instance.availabilityZone;
    assert Zones([c]) == {z};
    assert Filter([c], InZone(z)) == [c] by {
      assert [c][1..] == [];
    }
    assert CostsOf([c]) == ZoneCosts(TotalCostPerMonth(c), 0.0);
  }
}
