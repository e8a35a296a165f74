/** `EC2CostEstimator.main` without its printing: price the snapshot, list idle and
    attached volumes and stopped and running instances by descending cost, and sum the
    costs per availability zone into one grand total. */
module Estimator {
  import opened Wrappers
  import opened Errors
  import opened Snapshot
  import opened Sequences
  import opened Ebs
  import opened Pricing
  import opened Instances

  /** The volume listings print every volume with its cost: each volume with its cost, or
      the failure of the first volume that cannot be priced. */
  function PriceVolumes(vs: seq<EbsVolume>): (r: Result<seq<CostedVolume>, Error>)
    ensures r.Ok? <==> forall i :: 0 <= i < |vs| ==> CostPerMonth(vs[i]).Ok?
    ensures r.Ok? ==> |r.value| == |vs|
                      && forall i :: 0 <= i < |vs| ==> r.value[i].volume == vs[i] && CostIsCorrect(r.value[i])
    ensures r.Err? ==> exists i :: 0 <= i < |vs| && CostPerMonth(vs[i]) == Err(r.error)
  {
    if vs == [] then Ok([])
    else
      var cost :- CostPerMonth(vs[0]);
      match PriceVolumes(vs[1..])
      case Err(e) =>
        assert exists i :: 0 <= i < |vs| - 1 && CostPerMonth(vs[1..][i]) == Err(e);
        Err(e)
      case Ok(rest) =>
        assert forall i :: 1 <= i < |vs| ==> vs[i] == vs[1..][i - 1];
        Ok([CostedVolume(vs[0], cost)] + rest)
  }

  /** The instance listings print every instance with its total cost: each instance with
      its compute cost, or the failure of the first running instance the catalog cannot price. */
  function CostInstances(ps: seq<PricedInstance>): (r: Result<seq<CostedInstance>, Error>)
    ensures r.Ok? <==> forall i :: 0 <= i < |ps| ==> InstanceCostPerMonth(ps[i]).Ok?
    ensures r.Ok? ==> |r.value| == |ps|
                      && forall i :: 0 <= i < |ps| ==> r.value[i].instance == ps[i] && InstanceCostIsCorrect(r.value[i])
    ensures r.Err? ==> exists i :: 0 <= i < |ps| && InstanceCostPerMonth(ps[i]) == Err(r.error)
  {
    if ps == [] then Ok([])
    else
      var cost :- InstanceCostPerMonth(ps[0]);
      match CostInstances(ps[1..])
      case Err(e) =>
        assert exists i :: 0 <= i < |ps| - 1 && InstanceCostPerMonth(ps[1..][i]) == Err(e);
        Err(e)
      case Ok(rest) =>
        assert forall i :: 1 <= i < |ps| ==> ps[i] == ps[1..][i - 1];
        Ok([CostedInstance(ps[0], cost)] + rest)
  }

  /** The availability zones the instances occupy. */
  function Zones(s: seq<CostedInstance>): set<string> {
    set i | 0 <= i < |s| :: s[i].instance.availabilityZone
  }

  /** Placed in zone `z` (exact string match). */
  function InZone(z: string): CostedInstance -> bool {
    (c: CostedInstance) => c.instance.availabilityZone == z
  }

  /** Placed in one of the zones `zs`. */
  function InZones(zs: set<string>): CostedInstance -> bool {
    (c: CostedInstance) => c.instance.availabilityZone in zs
  }

  /** `groupingBy(PricedInstance::getAvailabilityZone)`: each instance is appended to the
      list of its zone, in encounter order. */
  function GroupByZone(s: seq<CostedInstance>): map<string, seq<CostedInstance>> {
    if s == [] then map[]
    else
      var g, last := GroupByZone(s[..|s| - 1]), s[|s| - 1];
      var z := last.instance.availabilityZone;
      g[z := (if z in g then g[z] else []) + [last]]
  }

  lemma ZonesOfAppend(s: seq<CostedInstance>)
    requires s != []
    ensures Zones(s) == Zones(s[..|s| - 1]) + {s[|s| - 1].instance.availabilityZone}
  {
    var init := s[..|s| - 1];
    forall y | y in Zones(s) ensures y in Zones(init) + {s[|s| - 1].instance.availabilityZone} {
      var i :| 0 <= i < |s| && s[i].instance.availabilityZone == y;
      if i < |init| { assert init[i] == s[i]; }
    }
    forall y | y in Zones(init) ensures y in Zones(s) {
      var i :| 0 <= i < |init| && init[i].instance.availabilityZone == y;
      assert s[i] == init[i];
    }
  }

  /** The groups are keyed by exactly the zones that occur, none is empty, and each holds
      the instances of its zone in input order, so every instance lies in exactly one group. */
  lemma {:induction false} GroupByZoneGroups(s: seq<CostedInstance>)
    ensures GroupByZone(s).Keys == Zones(s)
    ensures forall z :: z in GroupByZone(s) ==> GroupByZone(s)[z] == Filter(s, InZone(z)) != []
  {
    if s != [] {
      var init, last := s[..|s| - 1], s[|s| - 1];
      var z := last.instance.availabilityZone;
      GroupByZoneGroups(init);
      ZonesOfAppend(s);
      assert s == init + [last];
      forall y ensures Filter(s, InZone(y)) == Filter(init, InZone(y)) + (if y == z then [last] else []) {
        FilterAppend(init, [last], InZone(y));
      }
      if z !in GroupByZone(init) {
        forall i | 0 <= i < |init| ensures !InZone(z)(init[i]) {
          assert init[i].instance.availabilityZone in Zones(init);
        }
        FilterNone(init, InZone(z));
      }
    }
  }

  /** Adding one more zone to the visited ones adds that zone's instances to the sum. */
  lemma AddZone(instances: seq<CostedInstance>, done: set<string>, z: string)
    requires z !in done
    ensures Sum(Filter(instances, InZones(done + {z})), TotalCostPerMonth)
         == Sum(Filter(instances, InZones(done)), TotalCostPerMonth)
            + Sum(Filter(instances, InZone(z)), TotalCostPerMonth)
  {
    SumDisjointUnion(instances, TotalCostPerMonth, InZones(done), InZone(z), InZones(done + {z}));
  }

  /** Once every zone is visited, every instance has been counted. */
  lemma AllZones(instances: seq<CostedInstance>)
    ensures Filter(instances, InZones(Zones(instances))) == instances
  {
    forall p | p in instances ensures InZones(Zones(instances))(p) {
      var i :| 0 <= i < |instances| && instances[i] == p;
    }
    FilterAll(instances, InZones(Zones(instances)));
  }

  /** What the summary prints for one zone. */
  datatype ZoneCosts = ZoneCosts(running: real, stopped: real)

  /** The running and the stopped sums of one zone's group, accumulated instance by instance. */
  function CostsOf(group: seq<CostedInstance>): ZoneCosts {
    if group == [] then ZoneCosts(0.0, 0.0)
    else
      var rest, c := CostsOf(group[1..]), group[0];
      if Running(c) then ZoneCosts(TotalCostPerMonth(c) + rest.running, rest.stopped)
      else ZoneCosts(rest.running, TotalCostPerMonth(c) + rest.stopped)
  }

  /** The two sums are Java's two pipelines, filter then sum, and together they are
      the total cost of the group. */
  lemma {:induction false} CostsOfSplits(group: seq<CostedInstance>)
    ensures CostsOf(group).running == Sum(Filter(group, Running), TotalCostPerMonth)
    ensures CostsOf(group).stopped == Sum(Filter(group, Stopped), TotalCostPerMonth)
    ensures CostsOf(group).running + CostsOf(group).stopped == Sum(group, TotalCostPerMonth)
  {
    if group != [] {
      CostsOfSplits(group[1..]);
      SumFilterCons(group, TotalCostPerMonth, Running);
      SumFilterCons(group, TotalCostPerMonth, Stopped);
    }
  }

  /** The total cost of the instances placed in one of the zones `done`. */
  function CountedCost(instances: seq<CostedInstance>, done: set<string>): real {
    if instances == [] then 0.0
    else
      (if instances[0].instance.availabilityZone in done then TotalCostPerMonth(instances[0]) else 0.0)
      + CountedCost(instances[1..], done)
  }

  /** Counting by zone is filtering by zone, then summing. */
  lemma {:induction false} CountedCostIsFilterSum(instances: seq<CostedInstance>, done: set<string>)
    ensures CountedCost(instances, done) == Sum(Filter(instances, InZones(done)), TotalCostPerMonth)
  {
    if instances != [] {
      CountedCostIsFilterSum(instances[1..], done);
      SumFilterCons(instances, TotalCostPerMonth, InZones(done));
    }
  }

  /** The summary lines of the zones `done`: each zone's running and stopped sums over the
      instances placed in it. */
  function ZoneSummary(instances: seq<CostedInstance>, done: set<string>): (m: map<string, ZoneCosts>)
    ensures m.Keys == done
  {
    map z | z in done :: CostsOf(Filter(instances, InZone(z)))
  }

  /** One turn of the summary loop: the group of a zone not yet visited is the zone's
      instances, and its two sums extend both the summary lines and the running total. */
  lemma SummaryStep(instances: seq<CostedInstance>, done: set<string>, z: string)
    requires z in GroupByZone(instances) && z !in done
    ensures ZoneSummary(instances, done)[z := CostsOf(GroupByZone(instances)[z])] == ZoneSummary(instances, done + {z})
    ensures CountedCost(instances, done + {z})
         == CountedCost(instances, done) + CostsOf(GroupByZone(instances)[z]).running
            + CostsOf(GroupByZone(instances)[z]).stopped
  {
    GroupByZoneGroups(instances);
    CostsOfSplits(Filter(instances, InZone(z)));
    AddZone(instances, done, z);
    CountedCostIsFilterSum(instances, done);
    CountedCostIsFilterSum(instances, done + {z});
  }

  /** Before the loop nothing is counted; after it, every zone and every instance is. */
  lemma SummaryBounds(instances: seq<CostedInstance>)
    ensures ZoneSummary(instances, {}) == map[]
    ensures CountedCost(instances, {}) == 0.0
    ensures GroupByZone(instances).Keys == Zones(instances)
    ensures CountedCost(instances, Zones(instances)) == Sum(instances, TotalCostPerMonth)
  {
    FilterNone(instances, InZones({}));
    GroupByZoneGroups(instances);
    AllZones(instances);
    CountedCostIsFilterSum(instances, {});
    CountedCostIsFilterSum(instances, Zones(instances));
  }

  /** The cost summary: group the instances by zone, then, starting from the
      unattached-volume cost, add each zone's running and stopped sums, visiting the zones
      in any order. One line per zone that occurs, holding the sums over exactly that
      zone's instances, and a total that counts every instance once. */
  method CostSummary(unattachedCost: real, instances: seq<CostedInstance>)
    returns (zoneCosts: map<string, ZoneCosts>, totalCost: real)
    ensures zoneCosts == ZoneSummary(instances, Zones(instances))
    ensures totalCost == unattachedCost + Sum(instances, TotalCostPerMonth)
  {
    var byZone := GroupByZone(instances);
    totalCost := unattachedCost;
    zoneCosts := map[];
    var pending := byZone.Keys;
    ghost var done: set<string> := {};
    SummaryBounds(instances);
    while pending != {}
      invariant done !! pending && done + pending == byZone.Keys
      invariant zoneCosts == ZoneSummary(instances, done)
      invariant totalCost == unattachedCost + CountedCost(instances, done)
      decreases pending
    {
      var z :| z in pending;
      SummaryStep(instances, done, z);
      var costs := CostsOf(byZone[z]);
      totalCost := totalCost + costs.running;
      totalCost := totalCost + costs.stopped;
      zoneCosts := zoneCosts[z := costs];
      pending := pending - {z};
      done := done + {z};
    }
  }
}
