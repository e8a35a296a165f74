# AWSCostEstimator in Dafny

This project models the monthly cost estimator for EC2 instances and EBS volumes
(`EC2CostEstimator`, `EBSUtilities`, `InstanceUtilities`). It works on an already-fetched
snapshot of volumes and reservations and does the following:

- It prices every EBS volume by its type, size and provisioned IOPS.
- It prices every running instance at 730 hours of its on-demand hourly rate. The rate comes
  from two fixed tables, Linux and Windows.
- It links each instance to the volumes its block-device mappings name, most expensive first.
- It lists idle and attached volumes and stopped and running instances, each listing sorted
  stably by descending cost.
- It sums each availability zone's running and stopped instances. The grand total is the
  idle-volume cost plus every zone's two sums.

Money is exact `real` arithmetic. Every failure the model covers becomes a value of
`Errors.Error`, returned through `Result`.

Modules, in dependency order:

- `Wrappers`: `Option` and `Result`.
- `Errors`: the failures a run can end with.
- `Snapshot`: the SDK records the estimator reads. These are `Volume`, `Instance`, `Tag`,
  `BlockDeviceMapping` and `Reservation`.
- `Text`: Java's `String.equalsIgnoreCase` and the first-matching-tag lookup.
- `Sequences`: the stream operations used. These are filter, summing, and a stable sort
  by descending key.
- `Ebs`: `EBSVolume`, its constructor and `getCostPerMonth`.
- `Pricing`: the two hourly price tables and `getPricePerHour`.
- `Instances`: `PricedInstance`, its constructor, its three cost getters, and the volume
  index built in `getInstances`.
- `Estimator`: the grouping by zone and the cost-summary loop of `main`.
- `Report`: one whole run of `main` without printing. It covers when a run succeeds, the
  four listings and the summary.

Costs are computed once and stored. `Ebs.CostedVolume` and `Instances.CostedInstance` pair
each record with its cost. `Ebs.CostIsCorrect` and `Instances.InstanceCostIsCorrect` tie the
stored cost to `getCostPerMonth` and `getInstanceCostPerMonth`. `Estimator.PriceVolumes`
and `Estimator.CostInstances` establish those two predicates.

Java computes these costs lazily. They are computed eagerly here, and that is sound:
`main` prints every volume and every instance, and `toString` calls the cost getters. So
any cost failure ends the run in Java too.

Two behaviours of the Java code, and how the model treats them:

- The linked volumes of an instance are sorted by descending cost inside the
  `PricedInstance` constructor (`InstanceUtilities.java:81`), stably, so volumes of equal
  cost keep their mapping order.
- A mapping that names a missing volume puts `null` into the list in Java. Java then fails
  later, with a null dereference in the sort or from the volume-cost sum. The model
  fails at link time with `DanglingVolumeReference`. Either way the run ends without a
  report.

## Model

| member | source | states |
|---|---|---|
| Ebs.NewEbsVolume | AWSCostEstimator/src/main/java/org/cp/ec2/EBSUtilities.java:44-58 | `isInUse` holds iff the state equals "in-use" ignoring case. `name` is the value of the first tag keyed "name" ignoring case, else "". Id, zone, state, type, size and IOPS are copied unchanged. |
| Ebs.InUseSpellings | AWSCostEstimator/src/main/java/org/cp/ec2/EBSUtilities.java:48 | "in-use", "IN-USE" and "In-Use" are in use. "available", "in_use", "inuse" and "in-use " are idle. |
| Ebs.CostPerMonth | AWSCostEstimator/src/main/java/org/cp/ec2/EBSUtilities.java:92-110 | The cost is defined iff the type is exactly "standard", "gp2" or "io1" and an io1 volume has IOPS. Any other type fails with `UnknownVolumeType`, never with a cost of 0. io1 without IOPS fails with `MissingIops`. With non-negative size and IOPS the cost is non-negative. |
| Ebs.StandardCost | AWSCostEstimator/src/main/java/org/cp/ec2/EBSUtilities.java:95-97 | A standard volume costs exactly 0.05 × size, whatever its IOPS. |
| Ebs.Gp2Cost | AWSCostEstimator/src/main/java/org/cp/ec2/EBSUtilities.java:98-100 | A gp2 volume costs exactly 0.10 × size, whatever its IOPS. |
| Ebs.Io1Cost | AWSCostEstimator/src/main/java/org/cp/ec2/EBSUtilities.java:101-104 | An io1 volume costs exactly 0.125 × size + 0.065 × IOPS, and fails without IOPS. |
| Ebs.TypeMatchIsCaseSensitive | AWSCostEstimator/src/main/java/org/cp/ec2/EBSUtilities.java:95-107 | "GP2", "Standard", "IO1", "sc1", "st1", "gp3" and "" all fail with `UnknownVolumeType`. |
| Ebs.CostMonotoneInSize | AWSCostEstimator/src/main/java/org/cp/ec2/EBSUtilities.java:92-110 | For a fixed type and IOPS, a larger volume never costs less. |
| Ebs.CostIgnoresState | AWSCostEstimator/src/main/java/org/cp/ec2/EBSUtilities.java:92-110 | The cost does not depend on state, in-use flag, id, zone or name. An idle volume costs the same as an attached one. |
| Ebs.WorkedExamples | AWSCostEstimator/src/main/java/org/cp/ec2/EBSUtilities.java:95-104 | 100 GB standard costs 5.00. 50 GB io1 with 1000 IOPS costs 71.25. |
| Text.CharMatchesLowerAscii | AWSCostEstimator/src/main/java/org/cp/ec2/EBSUtilities.java:54 | The character test behind `Text.EqualsIgnoreCase` (`String.equalsIgnoreCase`): a character matches a lower-case ASCII letter (or '-') ignoring case iff it is that letter, its upper case, or one of the four non-ASCII letters Java folds onto it. |
| Text.TagValue | AWSCostEstimator/src/main/java/org/cp/ec2/EBSUtilities.java:53-57 | The result is the value of the first tag whose key matches ignoring case, with a null value read as "". With no matching tag it is "". |
| Snapshot.AllInstances | AWSCostEstimator/src/main/java/org/cp/ec2/InstanceUtilities.java:162-163 | Every instance of every reservation is in the flattened list, and nothing else is. |
| Snapshot.AllInstancesSingle | AWSCostEstimator/src/main/java/org/cp/ec2/InstanceUtilities.java:162-163 | One reservation flattens to exactly its instances, in order. |
| Snapshot.AllInstancesAppend | AWSCostEstimator/src/main/java/org/cp/ec2/InstanceUtilities.java:162-163 | Flattening two runs of reservations is flattening each and concatenating: reservation order, each block in its own order, repeats kept. |
| Pricing.PricePerHour | AWSCostEstimator/src/main/java/org/cp/ec2/InstanceUtilities.java:32-46 | A price exists iff the type is in the catalog and the platform is absent (Linux) or "windows" ignoring case. The price is then the Linux table's entry without a platform and the Windows table's entry with one, and it is positive. Otherwise the result is `UnknownPricingKey(type, platform)`. |
| Pricing.CatalogFacts | AWSCostEstimator/src/main/java/org/cp/ec2/InstanceUtilities.java:172-264 | Both tables price the same instance types, and every price is strictly positive. |
| Pricing.CatalogHas39Types | AWSCostEstimator/src/main/java/org/cp/ec2/InstanceUtilities.java:172-264 | Both tables have exactly the 39 listed instance types as keys. |
| Instances.IsRunningCodeModulo | AWSCostEstimator/src/main/java/org/cp/ec2/InstanceUtilities.java:63 | `Instances.IsRunningCode`, the state-code test: `(code & 0xFF) == 16` iff the unsigned code mod 256 is 16. 16, 272 and 0xFFFFFF10 are running. 0, 48, 64 and 80 are not. |
| Instances.LinkVolumes | AWSCostEstimator/src/main/java/org/cp/ec2/InstanceUtilities.java:77-80 | Linking succeeds iff every mapping has an EBS device whose id is indexed. The result is then the indexed volumes in mapping order. Otherwise the result is `MissingEbsDevice` or `DanglingVolumeReference`. |
| Instances.NewPricedInstance | AWSCostEstimator/src/main/java/org/cp/ec2/InstanceUtilities.java:58-83 | Construction succeeds iff every block-device mapping resolves. |
| Instances.NewPricedInstanceFields | AWSCostEstimator/src/main/java/org/cp/ec2/InstanceUtilities.java:58-83 | Zone, type, platform and state name are kept. "Running" is the state-code mask. Name and owner come from the first matching tags. The volumes are the linked volumes sorted stably by descending cost: a non-increasing permutation in which volumes of equal cost keep their mapping order. |
| Instances.InstanceCostPerMonth | AWSCostEstimator/src/main/java/org/cp/ec2/InstanceUtilities.java:117-125 | A stopped instance costs exactly 0 and never fails. A running one costs 730 × its catalog price, which is positive. It fails with `UnknownPricingKey` iff it runs and the catalog has no price for it. |
| Instances.TotalCostDecomposes | AWSCostEstimator/src/main/java/org/cp/ec2/InstanceUtilities.java:127-135 | `Instances.TotalCostPerMonth` (`getTotalCostPerMonth`) = `Instances.VolumeCostPerMonth` (`getVolumeCostPerMonth`, the sum of the linked volume costs) + (730 × price if running, else 0). A stopped instance's total is its volume cost. |
| Instances.VolumeCostOfLinkedVolumes | AWSCostEstimator/src/main/java/org/cp/ec2/InstanceUtilities.java:127-131 | `Instances.VolumeCostPerMonth` (`getVolumeCostPerMonth`): sorting does not change the instance's volume cost. It equals the sum over the volumes in mapping order. |
| Instances.LinkedVolumesAreIndexed | AWSCostEstimator/src/main/java/org/cp/ec2/InstanceUtilities.java:77-80 | A built instance links only volumes held by the index. |
| Instances.IndexedVolumesAreListed | AWSCostEstimator/src/main/java/org/cp/ec2/InstanceUtilities.java:159-160 | The index maps every id to a volume of the snapshot. |
| Instances.BuiltInstancesLinkListedVolumes | AWSCostEstimator/src/main/java/org/cp/ec2/InstanceUtilities.java:159-165 | Instances built against the index of a volume list link only volumes of that list. |
| Instances.IndexById | AWSCostEstimator/src/main/java/org/cp/ec2/InstanceUtilities.java:159-160 | Indexing succeeds iff no id repeats. The keys are then exactly the ids, and each id maps to its volume. Otherwise the result is `DuplicateVolumeId` for an id held by two volumes. |
| Instances.NewPricedInstances | AWSCostEstimator/src/main/java/org/cp/ec2/InstanceUtilities.java:162-165 | Building succeeds iff every instance can be built. The result then holds one `PricedInstance` per instance, in order. |
| Instances.GetInstances | AWSCostEstimator/src/main/java/org/cp/ec2/InstanceUtilities.java:151-165 | A repeated volume id fails with `DuplicateVolumeId`. Otherwise every instance of every reservation is built against the volume index. |
| Sequences.SortDescending | AWSCostEstimator/src/main/java/org/cp/ec2/EC2CostEstimator.java:36 | The sorted listing is non-increasing in the key and a permutation of its input. |
| Sequences.SortDescendingStable | AWSCostEstimator/src/main/java/org/cp/ec2/EC2CostEstimator.java:36 | Elements with equal keys keep their input order, as in Java's stable `sorted`. |
| Sequences.SumPermutation | AWSCostEstimator/src/main/java/org/cp/ec2/EC2CostEstimator.java:76-79 | Under exact arithmetic, a sum does not depend on the order of its elements. |
| Estimator.PriceVolumes | AWSCostEstimator/src/main/java/org/cp/ec2/EC2CostEstimator.java:34-45 | Pricing succeeds iff every volume can be priced. Each volume is then paired, in order, with the cost `getCostPerMonth` gives it. Otherwise the result is the failure of a volume. |
| Estimator.CostInstances | AWSCostEstimator/src/main/java/org/cp/ec2/EC2CostEstimator.java:59-70 | Costing succeeds iff every instance's compute cost is defined. Each instance is then paired, in order, with the cost `getInstanceCostPerMonth` gives it. |
| Estimator.GroupByZoneGroups | AWSCostEstimator/src/main/java/org/cp/ec2/EC2CostEstimator.java:56-57 | `Estimator.GroupByZone` (`groupingBy`): the group keys are exactly the zones that occur. Every group is non-empty and holds exactly its zone's instances in input order. |
| Estimator.CostsOfSplits | AWSCostEstimator/src/main/java/org/cp/ec2/EC2CostEstimator.java:86-94 | A zone's two sums are the filter-then-sum pipelines over its running and its stopped instances. Together they make the zone's total. |
| Estimator.SummaryStep | AWSCostEstimator/src/main/java/org/cp/ec2/EC2CostEstimator.java:85-97 | Visiting one more zone adds its summary line and adds its two sums to the total counted so far. |
| Estimator.CostSummary | AWSCostEstimator/src/main/java/org/cp/ec2/EC2CostEstimator.java:83-101 | Whatever order the zones are visited in, there is one line per occurring zone with that zone's running and stopped sums. The total is the unattached cost + the sum of every instance's total. |
| Report.PriceVolumesSucceeds | AWSCostEstimator/src/main/java/org/cp/ec2/EC2CostEstimator.java:30-45 | The volume listings can be priced iff every volume has a known type and (io1 ⇒ IOPS). Each volume is then its `EBSVolume` with its `getCostPerMonth`. |
| Report.NewPricedInstancesSucceeds | AWSCostEstimator/src/main/java/org/cp/ec2/InstanceUtilities.java:77-80 | Every instance can be built iff each of its mappings is an EBS device naming a volume of the snapshot. |
| Report.CostInstancesSucceeds | AWSCostEstimator/src/main/java/org/cp/ec2/InstanceUtilities.java:117-125 | Every built instance can be costed iff every running one has a type in the catalog and a Linux or "windows" platform. |
| Report.PriceSnapshotSucceeds | AWSCostEstimator/src/main/java/org/cp/ec2/EC2CostEstimator.java:30-70 | `Report.PriceSnapshot` (the pricing steps of `main`): a run fails iff one of these holds: a volume cannot be priced, a volume id repeats, a mapping does not resolve, or a running instance is not in the catalog. |
| Report.SnapshotVolumes | AWSCostEstimator/src/main/java/org/cp/ec2/EBSUtilities.java:29-31 | The priced volumes are the SDK volumes in order, each with its `getCostPerMonth`, and their ids are distinct. |
| Report.SnapshotInstances | AWSCostEstimator/src/main/java/org/cp/ec2/InstanceUtilities.java:159-165 | The priced instances are the instances of all reservations in order. Each is built against the volume index and paired with its `getInstanceCostPerMonth`. |
| Report.Estimate | AWSCostEstimator/src/main/java/org/cp/ec2/EC2CostEstimator.java:26-104 | A run succeeds iff the snapshot is priceable. It yields four stably sorted listings (idle, attached, stopped, running) of exactly the filtered members. The unattached cost is the idle volumes' sum. There is one summary line per zone, and the grand total is the unattached cost + every instance's total. |
| Report.LinkedVolumesArePriced | AWSCostEstimator/src/main/java/org/cp/ec2/InstanceUtilities.java:127-131 | In a priced run every volume an instance links is a snapshot volume carrying its `getCostPerMonth`, so an instance's volume cost is the sum of `getCostPerMonth` over its linked volumes. |
| Report.VolumeListingsPartition | AWSCostEstimator/src/main/java/org/cp/ec2/EC2CostEstimator.java:34-45 | The idle and attached listings together hold every volume exactly once. Idle means not in use; attached means in use. |
| Report.InstanceListingsPartition | AWSCostEstimator/src/main/java/org/cp/ec2/EC2CostEstimator.java:59-70 | The stopped and running listings together hold every instance exactly once, split by `isRunning`. |
| Report.GrandTotalFromListings | AWSCostEstimator/src/main/java/org/cp/ec2/EC2CostEstimator.java:76-103 | The grand total is the idle-listing sum + the stopped-listing sum + the running-listing sum. Attached volumes are counted only through their instances. |
| Report.InstanceTotalsSplit | AWSCostEstimator/src/main/java/org/cp/ec2/InstanceUtilities.java:127-135 | The instances' totals sum to the costs of all the volumes they link plus their compute costs. |
| Report.GrandTotalCountsEachVolumeOnce | AWSCostEstimator/src/main/java/org/cp/ec2/EC2CostEstimator.java:76-103 | When the instances together link exactly the attached volumes, each once, the grand total is every volume's cost plus every instance's compute cost. |
| Report.WorkedWindowsInstance | AWSCostEstimator/src/main/java/org/cp/ec2/InstanceUtilities.java:35-39 | A running Windows m4.large (platform "Windows") without volumes costs 730 × 0.246 = 179.58 a month. |
| Report.WorkedMonth | AWSCostEstimator/src/main/java/org/cp/ec2/InstanceUtilities.java:117-135 | An idle 100 GB standard volume costs 5.00. A running Linux m4.large costs 87.60 and, with a 50 GB/1000 IOPS io1 volume attached, 158.85 in total. The two sums add to 163.85. |
| Report.WorkedMonthReport | AWSCostEstimator/src/main/java/org/cp/ec2/EC2CostEstimator.java:76-103 | For a report of that snapshot, with the standard volume idle and the io1 volume attached: the unattached cost is 5.00, the instance's zone has the single line (158.85 running, 0 stopped), and the grand total is 163.85. |
| Report.SingleRunningZone | AWSCostEstimator/src/main/java/org/cp/ec2/EC2CostEstimator.java:85-97 | A lone running instance gives one summary line, for its zone, with its total as the running sum and nothing stopped. |

## Left out

- The AWS SDK calls (`describeVolumes`, `describeInstances`, the client constructors) are not modelled. The snapshot is given as input sequences. The redundant second `describeInstances` in `main` is not modelled either.
- The pagination checks ("next token present → fail") are not modelled. The snapshot is assumed complete.
- Printing is not modelled: `System.out.println`, the `toString` methods and `NumberFormat` currency formatting. What remains of `toString` is that it calls the cost getters, which is why every volume and every instance is costed.
- IEEE-754 `double` rounding in the products and in `summingDouble` is not modelled. Amounts are exact reals.
- `HashMap` iteration order is not modelled. The summary loop may visit the zones in any order, and its results are proved the same for every order.
- Which failure is reported when several apply is not modelled, nor the exception type and message. The model fails at the first failing stage: volumes, then the id index, then the instances, then compute costs. Java may already have printed earlier listings when it fails; the model produces no report at all on failure.
- `Report.EbsVolumes` models `getEbsVolumes` only as a one-to-one mapping through the constructor, because that function is outside the estimator's core.
- Null fields other than those listed here are not modelled: ids and zones are plain strings and `size` is an `int`. The nulls that are modelled: a null IOPS (`MissingIops`), a mapping without an EBS device (`MissingEbsDevice`), a null platform (`None`) and a null tag value (""). Java dereferences, and so fails on, these nulls: a null size of a priced volume, a null volume state, a null volume type (`EBSUtilities.java:95`), a null tag key, a null placement (`InstanceUtilities.java:59`), a null instance state or state code (`InstanceUtilities.java:62-63`) and a null instance zone (in `groupingBy`). A null volume id or volume zone is only stored and printed in Java.
- Text.CharEqualsIgnoreCase: Java's case folding is modelled only for ASCII letters and for the four non-ASCII letters that fold onto ASCII letters (ı, ſ, İ, K). Every comparison in the estimator is against an ASCII literal, so the result is exact there.
- Sequences.Filter: its own contract states only the length bound. What it keeps is stated by `Sequences.FilterMembers` and `Sequences.FilterPartition`.
- The grand total does not count each volume exactly once in every snapshot, in Java as in the model: an attached volume that no listed instance links is left out, and a volume linked by two mappings, or an idle volume that an instance links, is counted twice. `Report.GrandTotalCountsEachVolumeOnce` states the hypothesis under which the total is every volume once.
