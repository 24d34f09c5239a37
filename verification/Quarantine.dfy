/** Region quarantine (resilience/quarantine.py). */
module Quarantine {
  import opened Base
  import opened Events
  import opened Models
  import opened Cluster

  datatype QuarantineStatus = Active | Released

  ghost function ServersIn(servers: Servers, region: Region): set<ServerId> {
    set id | id in servers && servers[id].region == region
  }

  ghost function UnstableIn(servers: Servers, region: Region): set<ServerId> {
    set id | id in servers && servers[id].region == region && (servers[id].status == Degraded || servers[id].status == Failing)
  }

  // At least the threshold share of the region's servers is degraded or failed.
  ghost predicate Unstable(servers: Servers, region: Region, threshold: real) {
    && ServersIn(servers, region) != {}
    && |UnstableIn(servers, region)| as real / |ServersIn(servers, region)| as real * 100.0 >= threshold
  }

  lemma UnstableIs(servers: Servers, region: Region, threshold: real)
    ensures Unstable(servers, region, threshold) <==>
              var here := set id | id in servers && servers[id].region == region;
              var bad := set id | id in servers && servers[id].region == region
                                  && (servers[id].status == Degraded || servers[id].status == Failing);
              here != {} && 100.0 * |bad| as real >= threshold * |here| as real
  {
    var here := set id | id in servers && servers[id].region == region;
    assert here == ServersIn(servers, region);
    if here != {} {
      var n, b := |here| as real, |UnstableIn(servers, region)| as real;
      assert b / n * 100.0 == 100.0 * b / n;
      AtLeast(100.0 * b, n, threshold);
    }
  }

  lemma AtLeast(a: real, n: real, t: real)
    requires n > 0.0
    ensures a / n >= t <==> a >= t * n
  {
    assert a == a / n * n;
    if a / n >= t {
      assert (a / n - t) * n >= 0.0;
    } else {
      assert (t - a / n) * n > 0.0;
    }
  }

  class RegionQuarantineSystem {
    const cluster: ClusterState
    var quarantines: map<Region, QuarantineStatus>

    constructor (cluster: ClusterState)
      ensures this.cluster == cluster && quarantines == map[] && ActiveRegions() == {}
    {
      this.cluster := cluster;
      quarantines := map[];
    }

    // get_quarantined_regions
    function ActiveRegions(): (regions: set<Region>)
      reads this`quarantines
      ensures forall r :: r in regions <==> r in quarantines && quarantines[r] == Active
    {
      set r | r in quarantines && quarantines[r] == Active
    }

    method QuarantineRegion(region: Region)
      modifies this`quarantines
      ensures quarantines == old(quarantines)[region := Active]
      ensures ActiveRegions() == old(ActiveRegions()) + {region}
    {
      quarantines := quarantines[region := Active];
    }

    method ReleaseRegion(region: Region) returns (ok: bool)
      modifies this`quarantines
      ensures ok == (region in old(ActiveRegions()))
      ensures ActiveRegions() == old(ActiveRegions()) - {region}
      ensures quarantines == if ok then old(quarantines)[region := Released] else old(quarantines)
    {
      if region !in quarantines || quarantines[region] == Released { return false; }
      quarantines := quarantines[region := Released];
      ok := true;
    }

    method IsUnstable(region: Region, threshold: real) returns (over: bool)
      ensures over == Unstable(cluster.servers, region, threshold)
    {
      var here := set id | id in cluster.servers && cluster.servers[id].region == region;
      var unstable := set id | id in here && (cluster.servers[id].status == Degraded || cluster.servers[id].status == Failing);
      assert here == ServersIn(cluster.servers, region) && unstable == UnstableIn(cluster.servers, region);
      over := here != {} && |unstable| as real / |here| as real * 100.0 >= threshold;
    }

    // Quarantines every unstable region that is not quarantined yet, and lists those.
    method CheckAndAutoQuarantine(threshold: real) returns (found: seq<Region>)
      modifies this`quarantines
      ensures ActiveRegions() == old(ActiveRegions()) + Elems(found)
      ensures NoDup(found)
      ensures forall r :: r in found <==> r !in old(ActiveRegions()) && Unstable(cluster.servers, r, threshold)
    {
      found := [];
      ghost var start := ActiveRegions();
      var regions := set id | id in cluster.servers :: cluster.servers[id].region;
      var todo := regions;
      while todo != {}
        invariant todo <= regions
        invariant ActiveRegions() == start + Elems(found) && NoDup(found)
        invariant forall r :: r in found <==> r in regions - todo && r !in start && Unstable(cluster.servers, r, threshold)
      {
        var region :| region in todo;
        todo := todo - {region};
        var over := IsUnstable(region, threshold);
        if over && region !in ActiveRegions() {
          QuarantineRegion(region);
          assert Init(found + [region]) == found;
          ElemsConcat(found, [region]);
          assert Elems([region]) == {region};
          found := found + [region];
        }
      }
      forall r | Unstable(cluster.servers, r, threshold) ensures r in regions {
        var id :| id in ServersIn(cluster.servers, r);
        assert cluster.servers[id].region in regions;
      }
    }
  }
}
