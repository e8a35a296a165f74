/** The on-demand price catalog of `InstanceUtilities` and `getPricePerHour`. */
module Pricing {
  import opened Wrappers
  import opened Errors
  import opened Text
  import opened Sequences

  /** On-demand hourly prices of Linux instances, as published on 2016-01-24. */
  const LinuxPricePerHour: map<string, real> := map[
    "t2.nano" := 0.0065,
    "t2.micro" := 0.013,
    "t2.small" := 0.026,
    "t2.medium" := 0.052,
    "t2.large" := 0.104,
    "m4.large" := 0.12,
    "m4.xlarge" := 0.239,
    "m4.2xlarge" := 0.479,
    "m4.4xlarge" := 0.958,
    "m4.10xlarge" := 2.394,
    "m3.medium" := 0.067,
    "m3.large" := 0.133,
    "m3.xlarge" := 0.266,
    "m3.2xlarge" := 0.532,
    "c4.large" := 0.105,
    "c4.xlarge" := 0.209,
    "c4.2xlarge" := 0.419,
    "c4.4xlarge" := 0.838,
    "c4.8xlarge" := 1.675,
    "c3.large" := 0.105,
    "c3.xlarge" := 0.21,
    "c3.2xlarge" := 0.42,
    "c3.4xlarge" := 0.84,
    "c3.8xlarge" := 1.68,
    "g2.2xlarge" := 0.65,
    "g2.8xlarge" := 2.6,
    "r3.large" := 0.166,
    "r3.xlarge" := 0.333,
    "r3.2xlarge" := 0.665,
    "r3.4xlarge" := 1.33,
    "r3.8xlarge" := 2.66,
    "i2.xlarge" := 0.853,
    "i2.2xlarge" := 1.705,
    "i2.4xlarge" := 3.41,
    "i2.8xlarge" := 6.82,
    "d2.xlarge" := 0.69,
    "d2.2xlarge" := 1.38,
    "d2.4xlarge" := 2.76,
    "d2.8xlarge" := 5.52
  ]

  /** On-demand hourly prices of Windows instances, as published on 2016-01-24. */
  const WindowsPricePerHour: map<string, real> := map[
    "t2.nano" := 0.0088,
    "t2.micro" := 0.018,
    "t2.small" := 0.036,
    "t2.medium" := 0.072,
    "t2.large" := 0.134,
    "m4.large" := 0.246,
    "m4.xlarge" := 0.491,
    "m4.2xlarge" := 0.983,
    "m4.4xlarge" := 1.966,
    "m4.10xlarge" := 4.914,
    "m3.medium" := 0.13,
    "m3.large" := 0.259,
    "m3.xlarge" := 0.518,
    "m3.2xlarge" := 1.036,
    "c4.large" := 0.193,
    "c4.xlarge" := 0.386,
    "c4.2xlarge" := 0.773,
    "c4.4xlarge" := 1.546,
    "c4.8xlarge" := 3.091,
    "c3.large" := 0.188,
    "c3.xlarge" := 0.376,
    "c3.2xlarge" := 0.752,
    "c3.4xlarge" := 1.504,
    "c3.8xlarge" := 3.008,
    "g2.2xlarge" := 0.767,
    "g2.8xlarge" := 2.878,
    "r3.large" := 0.291,
    "r3.xlarge" := 0.583,
    "r3.2xlarge" := 1.045,
    "r3.4xlarge" := 1.944,
    "r3.8xlarge" := 3.5,
    "i2.xlarge" := 0.973,
    "i2.2xlarge" := 1.946,
    "i2.4xlarge" := 3.891,
    "i2.8xlarge" := 7.782,
    "d2.xlarge" := 0.821,
    "d2.2xlarge" := 1.601,
    "d2.4xlarge" := 3.062,
    "d2.8xlarge" := 6.198
  ]

  /** The table a platform selects: none (Linux) reads the Linux table, "windows" in any
      case the Windows table, and no other platform has one. */
  function PriceTable(platform: Option<string>): Option<map<string, real>> {
    match platform
    case None => Some(LinuxPricePerHour)
    case Some(p) => if EqualsIgnoreCase(p, "windows") then Some(WindowsPricePerHour) else None
  }

  /** `getPricePerHour`: the hourly price, or the failure Java throws when the
      platform has no table or the type has no entry in it. */
  function PricePerHour(instanceType: string, platform: Option<string>): (r: Result<real, Error>)
    ensures r.Ok? <==>
      (instanceType in LinuxPricePerHour && (platform.None? || EqualsIgnoreCase(platform.value, "windows")))
    ensures r.Ok? && platform.None? ==> r.value == LinuxPricePerHour[instanceType]
    ensures r.Ok? && platform.Some? ==> r.value == WindowsPricePerHour[instanceType]
    ensures r.Ok? ==> r.value > 0.0
    ensures r.Err? ==> r.error == UnknownPricingKey(instanceType, platform)
  {
    CatalogFacts();
    match PriceTable(platform)
    case Some(table) =>
      if instanceType in table then Ok(table[instanceType])
      else Err(UnknownPricingKey(instanceType, platform))
    case None => Err(UnknownPricingKey(instanceType, platform))
  }

  /** Both tables price the same instance types, and every price is positive. */
  lemma CatalogFacts()
    ensures LinuxPricePerHour.Keys == WindowsPricePerHour.Keys
    ensures forall t :: t in LinuxPricePerHour ==> LinuxPricePerHour[t] > 0.0
    ensures forall t :: t in WindowsPricePerHour ==> WindowsPricePerHour[t] > 0.0
  {
    SameTypes();
    LinuxPricesPositive();
    WindowsPricesPositive();
  }

  lemma SameTypes()
    ensures LinuxPricePerHour.Keys == WindowsPricePerHour.Keys
  {
  }

  lemma LinuxPricesPositive()
    ensures forall t :: t in LinuxPricePerHour ==> LinuxPricePerHour[t] > 0.0
  {
  }

  lemma WindowsPricesPositive()
    ensures forall t :: t in WindowsPricePerHour ==> WindowsPricePerHour[t] > 0.0
  {
  }

  /** The instance types both tables price, ordered by `TypeRank`. */
  const InstanceTypes: seq<string> := [
    "t2.nano", "c3.large", "c4.large", "m3.large", "m4.large",
    "r3.large", "t2.large", "t2.micro", "t2.small", "c3.xlarge",
    "c4.xlarge", "d2.xlarge", "i2.xlarge", "m3.medium", "m3.xlarge",
    "m4.xlarge", "r3.xlarge", "t2.medium", "c3.2xlarge", "c3.4xlarge",
    "c3.8xlarge", "c4.2xlarge", "c4.4xlarge", "c4.8xlarge", "d2.2xlarge",
    "d2.4xlarge", "d2.8xlarge", "g2.2xlarge", "g2.8xlarge", "i2.2xlarge",
    "i2.4xlarge", "i2.8xlarge", "m3.2xlarge", "m4.2xlarge", "m4.4xlarge",
    "r3.2xlarge", "r3.4xlarge", "r3.8xlarge", "m4.10xlarge"
  ]

  /** Length and three characters: enough to tell the listed instance types apart. */
  function TypeRank(t: string): int {
    if |t| < 4 then 0
    else |t| * 0x4000_0000 + t[0] as int * 0x10_0000 + t[1] as int * 0x400 + t[3] as int
  }

  /** The catalog prices exactly 39 instance types, the same ones in both tables. */
  lemma CatalogHas39Types()
    ensures LinuxPricePerHour.Keys == WindowsPricePerHour.Keys == set t | t in InstanceTypes
    ensures |LinuxPricePerHour.Keys| == 39
  {
    CatalogFacts();
    TypeRanksIncrease();
    IncreasingRanksDistinct(InstanceTypes, TypeRank);
    CatalogKeys();
  }

  lemma TypeRanksIncrease()
    ensures forall i :: 0 < i < |InstanceTypes| ==> TypeRank(InstanceTypes[i - 1]) < TypeRank(InstanceTypes[i])
  {
    TypeRanksIncreaseBelow20();
    TypeRanksIncreaseFrom20();
  }

  lemma TypeRanksIncreaseBelow20()
    ensures forall i :: 0 < i < 20 ==> TypeRank(InstanceTypes[i - 1]) < TypeRank(InstanceTypes[i])
  {
  }

  lemma TypeRanksIncreaseFrom20()
    ensures forall i :: 20 <= i < |InstanceTypes| ==> TypeRank(InstanceTypes[i - 1]) < TypeRank(InstanceTypes[i])
  {
  }

  lemma CatalogKeys()
    ensures LinuxPricePerHour.Keys == set t | t in InstanceTypes
  {
  }
}
