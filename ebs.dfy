/** `EBSUtilities.EBSVolume`: an EBS volume with its derived attributes and its monthly cost. */
module Ebs {
  import opened Wrappers
  import opened Errors
  import opened Snapshot
  import opened Text

  /** Monthly price per GB of a magnetic (`standard`) volume; per-request charges are not included. */
  const StandardPerGB: real := 0.05
  /** Monthly price per GB of a general-purpose SSD (`gp2`) volume. */
  const Gp2PerGB: real := 0.10
  /** Monthly price per GB of a provisioned-IOPS SSD (`io1`) volume. */
  const Io1PerGB: real := 0.125
  /** Monthly price per provisioned IOPS of an `io1` volume. */
  const Io1PerIops: real := 0.065

  /** The fields an `EBSVolume` keeps of its SDK `Volume`. */
  datatype EbsVolume = EbsVolume(
    volumeId: string,
    availabilityZone: string,
    state: string,
    isInUse: bool,
    volumeType: string,
    sizeInGB: int,
    iops: Option<int>,
    name: string)

  /** The `EBSVolume` constructor. */
  function NewEbsVolume(v: Volume): (e: EbsVolume)
    ensures e.isInUse <==> EqualsIgnoreCase(v.state, "in-use")
    ensures e.name == TagValue(v.tags, "name")
    ensures e.volumeId == v.volumeId && e.availabilityZone == v.availabilityZone && e.state == v.state
    ensures e.volumeType == v.volumeType && e.sizeInGB == v.size && e.iops == v.iops
  {
    EbsVolume(v.volumeId, v.availabilityZone, v.state, EqualsIgnoreCase(v.state, "in-use"),
              v.volumeType, v.size, v.iops, TagValue(v.tags, "name"))
  }

  /** The volume types `getCostPerMonth` knows, matched case-sensitively. */
  predicate KnownType(volumeType: string) {
    volumeType == "standard" || volumeType == "gp2" || volumeType == "io1"
  }

  /** `getCostPerMonth`: the monthly cost, or the failure Java throws. */
  function CostPerMonth(v: EbsVolume): (r: Result<real, Error>)
    ensures r.Ok? <==> KnownType(v.volumeType) && (v.volumeType == "io1" ==> v.iops.Some?)
    ensures !KnownType(v.volumeType) ==> r == Err(UnknownVolumeType(v.volumeType))
    ensures v.volumeType == "io1" && v.iops.None? ==> r == Err(MissingIops(v.volumeId))
    ensures r.Ok? && v.sizeInGB >= 0 && (v.iops.Some? ==> v.iops.value >= 0) ==> r.value >= 0.0
  {
    if v.volumeType == "standard" then
      Ok(StandardPerGB * v.sizeInGB as real)
    else if v.volumeType == "gp2" then
      Ok(Gp2PerGB * v.sizeInGB as real)
    else if v.volumeType == "io1" then
      match v.iops
      case None => Err(MissingIops(v.volumeId))
      case Some(iops) => Ok(Io1PerGB * v.sizeInGB as real + Io1PerIops * iops as real)
    else
      Err(UnknownVolumeType(v.volumeType))
  }

  /** A volume listed with the cost `getCostPerMonth` gives it. */
  datatype CostedVolume = CostedVolume(volume: EbsVolume, costPerMonth: real)

  /** The recorded cost is the one `getCostPerMonth` computes. */
  predicate CostIsCorrect(c: CostedVolume) {
    CostPerMonth(c.volume) == Ok(c.costPerMonth)
  }

  /** The key the volume listings are sorted by. */
  function Cost(c: CostedVolume): real {
    c.costPerMonth
  }

  /** Not in use: listed among the idle volumes. */
  function IsIdle(c: CostedVolume): bool {
    !c.volume.isInUse
  }

  /** In use: listed among the attached volumes. */
  function IsAttached(c: CostedVolume): bool {
    c.volume.isInUse
  }

  /** "in-use" is matched ignoring case; every other state, "available" among them, is idle. */
  lemma InUseSpellings(v: Volume)
    ensures v.state in {"in-use", "IN-USE", "In-Use"} ==> NewEbsVolume(v).isInUse
    ensures v.state in {"available", "in_use", "inuse", "in-use "} ==> !NewEbsVolume(v).isInUse
  {
    if v.state == "in_use" {
      assert !CharEqualsIgnoreCase(v.state[2], "in-use"[2]);
    }
  }

  // The cost formula, type by type.

  lemma StandardCost(v: EbsVolume, otherIops: Option<int>)
    requires v.volumeType == "standard"
    ensures CostPerMonth(v) == Ok(0.05 * v.sizeInGB as real)
    ensures CostPerMonth(v.(iops := otherIops)) == CostPerMonth(v)
  {
  }

  lemma Gp2Cost(v: EbsVolume, otherIops: Option<int>)
    requires v.volumeType == "gp2"
    ensures CostPerMonth(v) == Ok(0.10 * v.sizeInGB as real)
    ensures CostPerMonth(v.(iops := otherIops)) == CostPerMonth(v)
  {
  }

  lemma Io1Cost(v: EbsVolume)
    requires v.volumeType == "io1"
    ensures v.iops.Some? ==> CostPerMonth(v) == Ok(0.125 * v.sizeInGB as real + 0.065 * v.iops.value as real)
    ensures v.iops.None? ==> CostPerMonth(v) == Err(MissingIops(v.volumeId))
  {
  }

  /** The match is case-sensitive: only the three exact spellings are priced. */
  lemma TypeMatchIsCaseSensitive(v: EbsVolume)
    requires v.volumeType in {"GP2", "Standard", "IO1", "sc1", "st1", "gp3", ""}
    ensures CostPerMonth(v) == Err(UnknownVolumeType(v.volumeType))
  {
  }

  /** For a fixed type and IOPS, a larger volume never costs less. */
  lemma CostMonotoneInSize(v: EbsVolume, size: int)
    requires v.sizeInGB <= size
    requires CostPerMonth(v).Ok?
    ensures CostPerMonth(v.(sizeInGB := size)).Ok?
    ensures CostPerMonth(v).value <= CostPerMonth(v.(sizeInGB := size)).value
  {
  }

  /** The cost depends on type, size and IOPS only: an idle volume costs as much as an
      attached one, whatever its id, zone or name. */
  lemma CostIgnoresState(v: EbsVolume, state: string, isInUse: bool, id: string, zone: string, name: string)
    requires CostPerMonth(v).Ok?
    ensures CostPerMonth(v.(state := state, isInUse := isInUse, volumeId := id, availabilityZone := zone, name := name))
            == CostPerMonth(v)
  {
  }

  /** A 100 GB magnetic volume costs 5.00; a 50 GB io1 volume with 1000 IOPS costs 71.25. */
  lemma WorkedExamples(standard: EbsVolume, io1: EbsVolume)
    requires standard.volumeType == "standard" && standard.sizeInGB == 100
    requires io1.volumeType == "io1" && io1.sizeInGB == 50 && io1.iops == Some(1000)
    ensures CostPerMonth(standard) == Ok(5.00)
    ensures CostPerMonth(io1) == Ok(71.25)
  {
  }
}
