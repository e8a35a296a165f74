/** `InstanceUtilities`: instances priced from the catalog and linked to their EBS volumes. */
module Instances {
  import opened Wrappers
  import opened Errors
  import opened Snapshot
  import opened Text
  import opened Sequences
  import opened Ebs
  import opened Pricing

  /** Hours billed per month for a running instance. */
  const HoursPerMonth: real := 730.0

  /** `(code & 0xFF) == 16`: the low byte of the state code says "running". */
  predicate IsRunningCode(code: bv32) {
    code & 0xFF == 16
  }

  /** The mask keeps the code modulo 256 (read unsigned, so never negative): 16, 272 and
      -240 (0xFFFFFF10) are running; 0 (pending), 48 (terminated), 64 (stopping) and
      80 (stopped) are not. */
  lemma IsRunningCodeModulo(code: bv32)
    ensures IsRunningCode(code) <==> code % 256 == 16
    ensures IsRunningCode(16) && IsRunningCode(272) && IsRunningCode(0xFFFF_FF10)
    ensures !IsRunningCode(0) && !IsRunningCode(48) && !IsRunningCode(64) && !IsRunningCode(80)
  {
  }

  /** `PricedInstance`: the fields its constructor keeps, with the linked volumes. */
  datatype PricedInstance = PricedInstance(
    availabilityZone: string,
    instanceType: string,
    platform: Option<string>,
    state: string,
    isRunning: bool,
    name: string,
    owner: string,
    volumes: seq<CostedVolume>)

  /** The mapping names an EBS volume of the snapshot. */
  predicate Resolves(m: BlockDeviceMapping, byId: map<string, CostedVolume>) {
    m.ebsVolumeId.Some? && m.ebsVolumeId.value in byId
  }

  /** `getBlockDeviceMappings().map(getEbs).map(getVolumeId).map(ebsVolumes::get)`: the
      volumes the mappings name, in mapping order, or the failure for the first mapping
      without an EBS device or with an id the snapshot does not hold. */
  function LinkVolumes(mappings: seq<BlockDeviceMapping>, byId: map<string, CostedVolume>)
    : (r: Result<seq<CostedVolume>, Error>)
    ensures r.Ok? <==> forall i :: 0 <= i < |mappings| ==> Resolves(mappings[i], byId)
    ensures r.Ok? ==> |r.value| == |mappings|
                      && forall i :: 0 <= i < |mappings| ==> r.value[i] == byId[mappings[i].ebsVolumeId.value]
    ensures r.Err? ==> r.error == MissingEbsDevice || r.error.DanglingVolumeReference?
  {
    if mappings == [] then Ok([])
    else
      match mappings[0].ebsVolumeId
      case None => Err(MissingEbsDevice)
      case Some(id) =>
        if id !in byId then Err(DanglingVolumeReference(id))
        else
          match LinkVolumes(mappings[1..], byId)
          case Err(e) =>
            assert exists i :: 1 <= i < |mappings| && !Resolves(mappings[i], byId) by {
              var j :| 0 <= j < |mappings| - 1 && !Resolves(mappings[1..][j], byId);
              assert mappings[j + 1] == mappings[1..][j];
            }
            Err(e)
          case Ok(rest) =>
            assert forall i :: 1 <= i < |mappings| ==> mappings[i] == mappings[1..][i - 1];
            Ok([byId[id]] + rest)
  }

  /** The `PricedInstance` constructor: state, tags and the linked volumes, the most
      expensive first; it fails exactly when a mapping does not resolve. */
  function NewPricedInstance(inst: Instance, byId: map<string, CostedVolume>): (r: Result<PricedInstance, Error>)
    ensures r.Ok? <==> forall i :: 0 <= i < |inst.blockDeviceMappings| ==> Resolves(inst.blockDeviceMappings[i], byId)
  {
    var linked :- LinkVolumes(inst.blockDeviceMappings, byId);
    Ok(PricedInstance(
      inst.availabilityZone, inst.instanceType, inst.platform, inst.stateName,
      IsRunningCode(inst.stateCode), TagValue(inst.tags, "name"), TagValue(inst.tags, "owner"),
      SortDescending(linked, Cost)))
  }

  /** What the constructor keeps: zone, type, platform and state name as given, "running"
      from the state code, name and owner from the tags, and the linked volumes sorted
      stably, most expensive first: equal costs keep their mapping order. */
  lemma NewPricedInstanceFields(inst: Instance, byId: map<string, CostedVolume>)
    requires NewPricedInstance(inst, byId).Ok?
    ensures var p := NewPricedInstance(inst, byId).value;
      && p.availabilityZone == inst.availabilityZone
      && p.instanceType == inst.instanceType
      && p.platform == inst.platform
      && p.state == inst.stateName
      && p.isRunning == IsRunningCode(inst.stateCode)
      && p.name == TagValue(inst.tags, "name")
      && p.owner == TagValue(inst.tags, "owner")
      && StableSortOf(p.volumes, LinkVolumes(inst.blockDeviceMappings, byId).value, Cost)
  {
    SortDescendingIsStableSort(LinkVolumes(inst.blockDeviceMappings, byId).value, Cost);
  }

  /** `getInstanceCostPerMonth`: nothing for a stopped instance, whose price is never looked
      up; 730 hours at the catalog price for a running one, or the catalog's failure. */
  function InstanceCostPerMonth(p: PricedInstance): (r: Result<real, Error>)
    ensures !p.isRunning ==> r == Ok(0.0)
    ensures r.Err? <==> p.isRunning && PricePerHour(p.instanceType, p.platform).Err?
    ensures r.Err? ==> r.error == UnknownPricingKey(p.instanceType, p.platform)
    ensures p.isRunning && r.Ok? ==> r.value == HoursPerMonth * PricePerHour(p.instanceType, p.platform).value > 0.0
  {
    if p.isRunning then
      var price :- PricePerHour(p.instanceType, p.platform);
      Ok(HoursPerMonth * price)
    else
      Ok(0.0)
  }

  /** `getVolumeCostPerMonth`: the linked volumes' costs, whether or not the instance runs. */
  function VolumeCostPerMonth(p: PricedInstance): real {
    Sum(p.volumes, Cost)
  }

  /** An instance listed with the compute cost `getInstanceCostPerMonth` gives it. */
  datatype CostedInstance = CostedInstance(instance: PricedInstance, instanceCostPerMonth: real)

  /** The recorded compute cost is the one `getInstanceCostPerMonth` computes. */
  predicate InstanceCostIsCorrect(c: CostedInstance) {
    InstanceCostPerMonth(c.instance) == Ok(c.instanceCostPerMonth)
  }

  /** `getTotalCostPerMonth`. */
  function TotalCostPerMonth(c: CostedInstance): real {
    VolumeCostPerMonth(c.instance) + c.instanceCostPerMonth
  }

  function Running(c: CostedInstance): bool {
    c.instance.isRunning
  }

  function Stopped(c: CostedInstance): bool {
    !c.instance.isRunning
  }

  /** Total = volume cost + compute cost, where the volumes are billed even when the
      instance is stopped and the compute is billed only while it runs. */
  lemma TotalCostDecomposes(c: CostedInstance)
    requires InstanceCostIsCorrect(c)
    ensures TotalCostPerMonth(c) ==
      Sum(c.instance.volumes, Cost)
      + (if c.instance.isRunning then HoursPerMonth * PricePerHour(c.instance.instanceType, c.instance.platform).value else 0.0)
    ensures Stopped(c) ==> TotalCostPerMonth(c) == VolumeCostPerMonth(c.instance)
  {
  }

  /** Sorting the linked volumes does not change what they cost in total. */
  lemma VolumeCostOfLinkedVolumes(inst: Instance, byId: map<string, CostedVolume>)
    requires NewPricedInstance(inst, byId).Ok?
    ensures VolumeCostPerMonth(NewPricedInstance(inst, byId).value)
            == Sum(LinkVolumes(inst.blockDeviceMappings, byId).value, Cost)
  {
    var p := NewPricedInstance(inst, byId).value;
    NewPricedInstanceFields(inst, byId);
    SumPermutation(p.volumes, LinkVolumes(inst.blockDeviceMappings, byId).value, Cost);
  }

  /** No two volumes of the snapshot share an id. */
  predicate DistinctIds(vs: seq<CostedVolume>) {
    forall i, j :: 0 <= i < j < |vs| ==> vs[i].volume.volumeId != vs[j].volume.volumeId
  }

  /** The ids of the snapshot's volumes. */
  function Ids(vs: seq<CostedVolume>): set<string> {
    set i | 0 <= i < |vs| :: vs[i].volume.volumeId
  }

  lemma IdsOfAppend(vs: seq<CostedVolume>)
    requires vs != []
    ensures Ids(vs) == Ids(vs[..|vs| - 1]) + {vs[|vs| - 1].volume.volumeId}
  {
    var init := vs[..|vs| - 1];
    forall id | id in Ids(vs) ensures id in Ids(init) + {vs[|vs| - 1].volume.volumeId} {
      var i :| 0 <= i < |vs| && vs[i].volume.volumeId == id;
      if i < |init| {
        assert init[i] == vs[i];
      }
    }
    forall id | id in Ids(init) ensures id in Ids(vs) {
      var i :| 0 <= i < |init| && init[i].volume.volumeId == id;
      assert vs[i] == init[i];
    }
  }

  /** Adding the last volume under a new id extends the index of the others. */
  lemma IndexStep(m: map<string, CostedVolume>, vs: seq<CostedVolume>)
    requires vs != []
    requires m.Keys == Ids(vs[..|vs| - 1])
    requires forall i :: 0 <= i < |vs| - 1 ==> m[vs[i].volume.volumeId] == vs[i]
    requires vs[|vs| - 1].volume.volumeId !in m
    ensures m[vs[|vs| - 1].volume.volumeId := vs[|vs| - 1]].Keys == Ids(vs)
    ensures forall i :: 0 <= i < |vs| ==> m[vs[|vs| - 1].volume.volumeId := vs[|vs| - 1]][vs[i].volume.volumeId] == vs[i]
  {
    IdsOfAppend(vs);
    var last := vs[|vs| - 1];
    forall i | 0 <= i < |vs| - 1
      ensures vs[i].volume.volumeId != last.volume.volumeId
    {
      assert vs[..|vs| - 1][i] == vs[i];
      assert vs[i].volume.volumeId in Ids(vs[..|vs| - 1]);
    }
  }

  /** Two volumes of `vs` carry `id`. */
  predicate Duplicated(vs: seq<CostedVolume>, id: string) {
    exists i, j :: 0 <= i < j < |vs| && vs[i].volume.volumeId == id && vs[j].volume.volumeId == id
  }

  /** A duplicate among the first volumes is a duplicate of all of them. */
  lemma DuplicatedPrefix(vs: seq<CostedVolume>, n: nat, id: string)
    requires n <= |vs| && Duplicated(vs[..n], id)
    ensures Duplicated(vs, id) && !DistinctIds(vs)
  {
    var i, j :| 0 <= i < j < n && vs[..n][i].volume.volumeId == id && vs[..n][j].volume.volumeId == id;
    assert vs[i] == vs[..n][i] && vs[j] == vs[..n][j];
  }

  /** The last volume repeats an id of the ones before it. */
  lemma DuplicatedLast(vs: seq<CostedVolume>)
    requires vs != [] && vs[|vs| - 1].volume.volumeId in Ids(vs[..|vs| - 1])
    ensures Duplicated(vs, vs[|vs| - 1].volume.volumeId) && !DistinctIds(vs)
  {
    var i :| 0 <= i < |vs| - 1 && vs[..|vs| - 1][i].volume.volumeId == vs[|vs| - 1].volume.volumeId;
    assert vs[i] == vs[..|vs| - 1][i];
  }

  /** Without a repeat among the first volumes or of the last one, all ids differ. */
  lemma DistinctAppend(vs: seq<CostedVolume>)
    requires vs != [] && DistinctIds(vs[..|vs| - 1]) && vs[|vs| - 1].volume.volumeId !in Ids(vs[..|vs| - 1])
    ensures DistinctIds(vs)
  {
    var init := vs[..|vs| - 1];
    forall i, j | 0 <= i < j < |vs| ensures vs[i].volume.volumeId != vs[j].volume.volumeId {
      assert vs[i] == init[i];
      if j < |init| {
        assert vs[j] == init[j];
      } else {
        assert vs[i].volume.volumeId in Ids(init);
      }
    }
  }

  /** `Collectors.toMap(EBSVolume::getVolumeId, identity())`: the volumes by id, or the
      failure on the first id met a second time. */
  function IndexById(vs: seq<CostedVolume>): (r: Result<map<string, CostedVolume>, Error>)
    ensures r.Ok? <==> DistinctIds(vs)
    ensures r.Ok? ==> r.value.Keys == Ids(vs)
                      && forall i :: 0 <= i < |vs| ==> r.value[vs[i].volume.volumeId] == vs[i]
    ensures r.Err? ==> r.error.DuplicateVolumeId? && Duplicated(vs, r.error.volumeId)
  {
    if vs == [] then Ok(map[])
    else
      var init, last := vs[..|vs| - 1], vs[|vs| - 1];
      match IndexById(init)
      case Err(e) =>
        DuplicatedPrefix(vs, |vs| - 1, e.volumeId);
        Err(e)
      case Ok(m) =>
        if last.volume.volumeId in m then
          DuplicatedLast(vs);
          Err(DuplicateVolumeId(last.volume.volumeId))
        else
          DistinctAppend(vs);
          IndexStep(m, vs);
          Ok(m[last.volume.volumeId := last])
  }

  /** The index holds only volumes of the snapshot. */
  lemma IndexedVolumesAreListed(vs: seq<CostedVolume>)
    requires IndexById(vs).Ok?
    ensures forall id :: id in IndexById(vs).value ==> IndexById(vs).value[id] in vs
  {
    forall id | id in IndexById(vs).value ensures IndexById(vs).value[id] in vs {
      var i :| 0 <= i < |vs| && vs[i].volume.volumeId == id;
    }
  }

  /** A built instance links only volumes of the index. */
  lemma LinkedVolumesAreIndexed(inst: Instance, byId: map<string, CostedVolume>)
    requires NewPricedInstance(inst, byId).Ok?
    ensures forall v :: v in NewPricedInstance(inst, byId).value.volumes ==> v in byId.Values
  {
    NewPricedInstanceFields(inst, byId);
    var linked := LinkVolumes(inst.blockDeviceMappings, byId).value;
    forall v | v in NewPricedInstance(inst, byId).value.volumes ensures v in byId.Values {
      assert v in multiset(linked);
      var i :| 0 <= i < |linked| && linked[i] == v;
      assert byId[inst.blockDeviceMappings[i].ebsVolumeId.value] == v;
    }
  }

  /** Instances built against the index of `vs` link only volumes of `vs`. */
  lemma BuiltInstancesLinkListedVolumes(vs: seq<CostedVolume>, insts: seq<Instance>, cs: seq<CostedInstance>)
    requires IndexById(vs).Ok? && |cs| == |insts|
    requires forall k :: 0 <= k < |insts| ==> Ok(cs[k].instance) == NewPricedInstance(insts[k], IndexById(vs).value)
    ensures forall c, v :: c in cs && v in c.instance.volumes ==> v in vs
  {
    IndexedVolumesAreListed(vs);
    forall c, v | c in cs && v in c.instance.volumes ensures v in vs {
      var k :| 0 <= k < |cs| && cs[k] == c;
      LinkedVolumesAreIndexed(insts[k], IndexById(vs).value);
    }
  }

  /** Every instance of `insts` can be built against `byId`. */
  predicate AllBuild(insts: seq<Instance>, byId: map<string, CostedVolume>) {
    forall i :: 0 <= i < |insts| ==> NewPricedInstance(insts[i], byId).Ok?
  }

  lemma AllBuildCons(insts: seq<Instance>, byId: map<string, CostedVolume>)
    requires insts != []
    ensures AllBuild(insts, byId) <==> NewPricedInstance(insts[0], byId).Ok? && AllBuild(insts[1..], byId)
  {
    if NewPricedInstance(insts[0], byId).Ok? && AllBuild(insts[1..], byId) {
      forall i | 1 <= i < |insts| ensures NewPricedInstance(insts[i], byId).Ok? {
        assert insts[i] == insts[1..][i - 1];
      }
    }
  }

  /** One `PricedInstance` per instance, in order, or the failure of the first that cannot be built. */
  function NewPricedInstances(insts: seq<Instance>, byId: map<string, CostedVolume>)
    : (r: Result<seq<PricedInstance>, Error>)
    ensures r.Ok? <==> AllBuild(insts, byId)
    ensures r.Ok? ==> |r.value| == |insts|
                      && forall i :: 0 <= i < |insts| ==> r.value[i] == NewPricedInstance(insts[i], byId).value
  {
    if insts == [] then Ok([])
    else
      AllBuildCons(insts, byId);
      var first :- NewPricedInstance(insts[0], byId);
      var rest :- NewPricedInstances(insts[1..], byId);
      assert forall i :: 1 <= i < |insts| ==> insts[i] == insts[1..][i - 1];
      Ok([first] + rest)
  }

  /** `getInstances`: index the volumes by id, then build every instance of every reservation. */
  function GetInstances(volumes: seq<CostedVolume>, reservations: seq<Reservation>)
    : (r: Result<seq<PricedInstance>, Error>)
    ensures !DistinctIds(volumes) ==> r.Err? && r.error.DuplicateVolumeId?
    ensures DistinctIds(volumes) ==> r == NewPricedInstances(AllInstances(reservations), IndexById(volumes).value)
  {
    var byId :- IndexById(volumes);
    NewPricedInstances(AllInstances(reservations), byId)
  }
}
