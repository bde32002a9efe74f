/**
 What a projection accepts and produces, in terms of the reports and the declared networks alone: no
 gathered views, plans or ownership searches appear here.
 */
module DockerMeaning {
  import opened Wrappers
  import opened Texts
  import opened DockerProjection

  // ---- Reports ----

  predicate Reports(s: Seen, name: string) {
    s.name == name
  }

  predicate Reported(seen: seq<Seen>, name: string) {
    exists i :: 0 <= i < |seen| && Reports(seen[i], name)
  }

  /** The report is of a declared network, by the bridge driver, with a usable bridge name. */
  predicate Admissible(networks: seq<Network>, s: Seen) {
    && (exists k :: 0 <= k < |networks| && networks[k].name == s.name)
    && s.driver == "bridge" && s.bridge != "" && ':' !in s.bridge
  }

  /** Two reports of one network agree on its bridge and name different subnets. */
  predicate Compatible(s: Seen, t: Seen) {
    s.name == t.name ==> s.bridge == t.bridge && s.driver == t.driver && s.subnet != t.subnet
  }

  predicate Consistent(networks: seq<Network>, seen: seq<Seen>) {
    && (forall i :: 0 <= i < |seen| ==> Admissible(networks, seen[i]))
    && (forall i, j :: 0 <= i < j < |seen| ==> Compatible(seen[i], seen[j]))
  }

  predicate PairFrom(s: Seen, name: string, p: Pair) {
    s.name == name && p == Pair(s.subnet, s.gateway)
  }

  /** Some report gives the network this subnet and gateway. */
  predicate Given(seen: seq<Seen>, name: string, p: Pair) {
    exists i :: 0 <= i < |seen| && PairFrom(seen[i], name, p)
  }

  /** What a view says of its network is what the reports say. */
  ghost predicate Faithful(v: View, seen: seq<Seen>, name: string) {
    && (forall i :: 0 <= i < |seen| && seen[i].name == name ==> v.bridge == seen[i].bridge && v.driver == seen[i].driver)
    && (forall p :: p in v.pairs <==> Given(seen, name, p))
    && DistinctSubnets(v.pairs) && SortedBy(v.pairs, (p: Pair) => p.subnet)
  }

  ghost predicate AllFaithful(views: Views, seen: seq<Seen>) {
    && (forall n :: n in views <==> Reported(seen, n))
    && (forall n :: n in views ==> Faithful(views[n], seen, n))
  }

  lemma SplitLast(seen: seq<Seen>)
    requires seen != []
    ensures forall i :: 0 <= i < |seen| - 1 ==> seen[i] == seen[..|seen| - 1][i]
  {
  }

  lemma ConsistentStep(networks: seq<Network>, seen: seq<Seen>)
    requires seen != []
    ensures var before, s := seen[..|seen| - 1], seen[|seen| - 1];
      Consistent(networks, seen) <==>
        Consistent(networks, before) && Admissible(networks, s) && forall i :: 0 <= i < |before| ==> Compatible(before[i], s)
  {
    hide Admissible, Compatible;
    SplitLast(seen);
  }

  lemma SeenOkMeans(networks: seq<Network>, s: Seen)
    ensures SeenOk(networks, s) <==> Admissible(networks, s)
  {
  }

  /** A report agrees with the view gathered so far exactly when it is compatible with every earlier report. */
  lemma AgreesMeans(views: Views, before: seq<Seen>, s: Seen)
    requires AllFaithful(views, before)
    ensures Agrees(views, s) <==> forall i :: 0 <= i < |before| ==> Compatible(before[i], s)
  {
    if s.name in views {
      var v := views[s.name];
      assert Faithful(v, before, s.name);
      var r :| 0 <= r < |before| && Reports(before[r], s.name);
      if Agrees(views, s) {
        forall i | 0 <= i < |before| && before[i].name == s.name ensures before[i].subnet != s.subnet {
          assert PairFrom(before[i], s.name, Pair(before[i].subnet, before[i].gateway));
          assert Given(before, s.name, Pair(before[i].subnet, before[i].gateway));
          var k :| 0 <= k < |v.pairs| && v.pairs[k] == Pair(before[i].subnet, before[i].gateway);
        }
      }
      if forall i :: 0 <= i < |before| ==> Compatible(before[i], s) {
        assert Compatible(before[r], s);
        forall k | 0 <= k < |v.pairs| ensures v.pairs[k].subnet != s.subnet {
          assert v.pairs[k] in v.pairs && Given(before, s.name, v.pairs[k]);
          var i :| 0 <= i < |before| && PairFrom(before[i], s.name, v.pairs[k]);
          assert Compatible(before[i], s);
        }
      }
    } else {
      assert forall i :: 0 <= i < |before| ==> !Reports(before[i], s.name);
    }
  }

  lemma GivenAfter(before: seq<Seen>, s: Seen, n: string, p: Pair)
    ensures Given(before + [s], n, p) <==> Given(before, n, p) || PairFrom(s, n, p)
  {
    var seen := before + [s];
    hide PairFrom;
    assert seen[|before|] == s;
    if i :| 0 <= i < |before| && PairFrom(before[i], n, p) {
      assert PairFrom(seen[i], n, p);
    }
    if i :| 0 <= i < |seen| && PairFrom(seen[i], n, p) {
      assert i < |before| ==> PairFrom(before[i], n, p);
    }
  }

  lemma NothingGiven(before: seq<Seen>, n: string, p: Pair)
    requires !Reported(before, n)
    ensures !Given(before, n, p)
  {
    if i :| 0 <= i < |before| && PairFrom(before[i], n, p) {
      assert Reports(before[i], n);
    }
  }

  /** The subnets gathered for the report's network so far. */
  function PairsOf(views: Views, name: string): seq<Pair> {
    if name in views then views[name].pairs else []
  }

  lemma PairsAfter(views: Views, before: seq<Seen>, s: Seen)
    requires AllFaithful(views, before) && Agrees(views, s)
    ensures Faithful(WithSeen(views, s)[s.name], before + [s], s.name)
  {
    var old_, seen := PairsOf(views, s.name), before + [s];
    var pairs := old_ + [Pair(s.subnet, s.gateway)];
    if s.name in views {
      assert Faithful(views[s.name], before, s.name);
    }
    DistinctAfter(views, before, s);
    SortKeepsDistinct(pairs);
    SortSorts(pairs, (p: Pair) => p.subnet);
    SortMembers(pairs, (p: Pair) => p.subnet);
    forall p ensures p in pairs <==> Given(seen, s.name, p) {
      GivenAfter(before, s, s.name, p);
      if s.name !in views {
        NothingGiven(before, s.name, p);
      }
    }
    hide Given, DistinctSubnets, SortedBy, Agrees;
    assert WithSeen(views, s)[s.name] == View(s.bridge, s.driver, InOrder(pairs));
    BridgeAfter(views, before, s);
  }

  lemma DistinctAfter(views: Views, before: seq<Seen>, s: Seen)
    requires AllFaithful(views, before) && Agrees(views, s)
    ensures DistinctSubnets(PairsOf(views, s.name) + [Pair(s.subnet, s.gateway)])
  {
    hide Given, SortedBy;
    if s.name in views {
      assert Faithful(views[s.name], before, s.name);
    }
  }

  lemma BridgeAfter(views: Views, before: seq<Seen>, s: Seen)
    requires AllFaithful(views, before) && Agrees(views, s)
    ensures forall i :: 0 <= i < |before + [s]| && (before + [s])[i].name == s.name ==> s.bridge == (before + [s])[i].bridge && s.driver == (before + [s])[i].driver
  {
    hide Given, SortedBy, DistinctSubnets;
    var seen := before + [s];
    forall i | 0 <= i < |seen| && seen[i].name == s.name ensures s.bridge == seen[i].bridge && s.driver == seen[i].driver {
      if i < |before| {
        assert seen[i] == before[i] && Reports(before[i], s.name);
        assert Faithful(views[s.name], before, s.name);
      }
    }
  }

  lemma OthersAfter(views: Views, before: seq<Seen>, s: Seen, n: string)
    requires AllFaithful(views, before) && n != s.name && n in views
    ensures Faithful(views[n], before + [s], n)
  {
    var v, seen := views[n], before + [s];
    assert Faithful(v, before, n);
    assert forall i :: 0 <= i < |before| ==> seen[i] == before[i];
    forall p ensures Given(seen, n, p) <==> Given(before, n, p) {
      GivenAfter(before, s, n, p);
    }
    hide Given, SortedBy, DistinctSubnets;
  }

  lemma FaithfulAfter(views: Views, before: seq<Seen>, s: Seen)
    requires AllFaithful(views, before) && Agrees(views, s)
    ensures AllFaithful(WithSeen(views, s), before + [s])
  {
    var seen, after := before + [s], WithSeen(views, s);
    PairsAfter(views, before, s);
    forall n ensures n in after <==> Reported(seen, n) {
      if i :| 0 <= i < |before| && Reports(before[i], n) {
        assert Reports(seen[i], n);
      }
      if i :| 0 <= i < |seen| && Reports(seen[i], n) {
        assert i < |before| ==> Reports(before[i], n);
      }
      assert Reports(seen[|before|], s.name);
    }
    forall n | n in after ensures Faithful(after[n], seen, n) {
      if n != s.name {
        OthersAfter(views, before, s, n);
      }
    }
  }

  /** Gathering succeeds exactly on consistent reports, and its views say what the reports say. */
  lemma {:induction false} GatheredMeans(networks: seq<Network>, seen: seq<Seen>)
    ensures Gathered(networks, seen).Some? <==> Consistent(networks, seen)
    ensures Gathered(networks, seen).Some? ==> AllFaithful(Gathered(networks, seen).value, seen)
  {
    if seen != [] {
      var before, s := seen[..|seen| - 1], seen[|seen| - 1];
      GatheredMeans(networks, before);
      ConsistentStep(networks, seen);
      SeenOkMeans(networks, s);
      hide Consistent, AllFaithful, Agrees, SeenOk, Admissible, Compatible, WithSeen;
      assert seen == before + [s];
      if Consistent(networks, before) {
        AgreesMeans(Gathered(networks, before).value, before, s);
        if Agrees(Gathered(networks, before).value, s) {
          FaithfulAfter(Gathered(networks, before).value, before, s);
        }
      }
    }
  }

  // ---- Confirmed networks ----

  predicate PlanStands(n: Network) {
    && n.subnets != [] && |n.subnets| == |n.gateways|
    && forall i, j :: 0 <= i < j < |n.subnets| ==> n.subnets[i] != n.subnets[j]
  }

  predicate Planned(n: Network, p: Pair) {
    exists i :: 0 <= i < |n.subnets| && i < |n.gateways| && n.subnets[i] == p.subnet && n.gateways[i] == p.gateway
  }

  predicate Fits(n: Network, s: Seen) {
    s.name == n.name ==> s.driver == n.driver && (n.dynamic || s.bridge == n.bridge)
  }

  /** The reports are of exactly the declared subnets and gateways, and of the declared driver and, unless it may move, bridge. */
  ghost predicate Confirmed(n: Network, seen: seq<Seen>) {
    && PlanStands(n) && Reported(seen, n.name)
    && (forall i :: 0 <= i < |seen| ==> Fits(n, seen[i]))
    && (forall p :: Planned(n, p) <==> Given(seen, n.name, p))
  }

  /** Two lists in ascending order of subnet, without repeats and with the same members, are the same list. */
  lemma {:induction false} OneOrder(a: seq<Pair>, b: seq<Pair>)
    requires DistinctSubnets(a) && DistinctSubnets(b)
    requires SortedBy(a, (p: Pair) => p.subnet) && SortedBy(b, (p: Pair) => p.subnet)
    requires forall p :: p in a <==> p in b
    ensures a == b
    decreases |a|
  {
    if a != [] {
      assert a[0] in b;
      assert b[0] in a;
      FirstIsLeast(a, b);
      FirstIsLeast(b, a);
      LeqIsAntisymmetric(a[0].subnet, b[0].subnet);
      var i :| 0 <= i < |b| && b[i] == a[0];
      assert i == 0;
      forall p ensures p in a[1..] <==> p in b[1..] {
        MembersOfRest(a, p);
        MembersOfRest(b, p);
      }
      OneOrder(a[1..], b[1..]);
      assert a == [a[0]] + a[1..] && b == [b[0]] + b[1..];
    } else if b != [] {
      SomeMember(b);
    }
  }

  lemma SomeMember(b: seq<Pair>)
    requires b != []
    ensures exists p :: p in b
  {
    assert b[0] in b;
  }

  lemma FirstIsLeast(a: seq<Pair>, b: seq<Pair>)
    requires a != [] && b != [] && SortedBy(a, (p: Pair) => p.subnet) && b[0] in a
    ensures Leq(a[0].subnet, b[0].subnet)
  {
    var i :| 0 <= i < |a| && a[i] == b[0];
    if i == 0 {
      LeqIsTotal(a[0].subnet, a[0].subnet);
    }
  }

  lemma MembersOfRest(a: seq<Pair>, p: Pair)
    requires a != [] && DistinctSubnets(a)
    ensures p in a[1..] <==> p in a && p != a[0]
  {
    assert a == [a[0]] + a[1..];
  }

  lemma ZipMeans(n: Network, p: Pair)
    requires |n.subnets| == |n.gateways|
    ensures p in Zip(n.subnets, n.gateways) <==> Planned(n, p)
    ensures DistinctSubnets(Zip(n.subnets, n.gateways)) <==> forall i, j :: 0 <= i < j < |n.subnets| ==> n.subnets[i] != n.subnets[j]
  {
    var z := Zip(n.subnets, n.gateways);
    assert forall i :: 0 <= i < |z| ==> z[i] == Pair(n.subnets[i], n.gateways[i]);
    if Planned(n, p) {
      var i :| 0 <= i < |n.subnets| && i < |n.gateways| && n.subnets[i] == p.subnet && n.gateways[i] == p.gateway;
      assert z[i] == p;
    }
  }

  lemma PlanMeans(n: Network)
    ensures Plan(n).Some? <==> PlanStands(n)
    ensures Plan(n).Some? ==>
      && DistinctSubnets(Plan(n).value) && SortedBy(Plan(n).value, (p: Pair) => p.subnet)
      && forall p :: p in Plan(n).value <==> Planned(n, p)
  {
    if n.subnets != [] && |n.subnets| == |n.gateways| {
      var z := Zip(n.subnets, n.gateways);
      ZipMeans(n, z[0]);
      if DistinctSubnets(z) {
        SortKeepsDistinct(z);
        SortSorts(z, (p: Pair) => p.subnet);
        SortMembers(z, (p: Pair) => p.subnet);
        forall p ensures p in Plan(n).value <==> Planned(n, p) {
          ZipMeans(n, p);
        }
      }
    }
  }

  lemma MatchesMeans(n: Network, views: Views, seen: seq<Seen>, networks: seq<Network>)
    requires AllFaithful(views, seen) && Consistent(networks, seen)
    ensures Matches(n, views) <==> Confirmed(n, seen)
  {
    PlanMeans(n);
    hide Plan, PlanStands;
    if n.name in views {
      var v := views[n.name];
      assert Faithful(v, seen, n.name);
      var r :| 0 <= r < |seen| && Reports(seen[r], n.name);
      assert Admissible(networks, seen[r]);
      assert LinkName(v.bridge);
      hide Given, Planned;
      if Confirmed(n, seen) {
        assert Fits(n, seen[r]);
        OneOrder(Plan(n).value, v.pairs);
      }
    }
  }

  ghost predicate AllConfirmed(networks: seq<Network>, seen: seq<Seen>) {
    forall k :: 0 <= k < |networks| ==> Confirmed(networks[k], seen)
  }

  /** The views exist and match exactly when the reports are consistent and confirm every declared network. */
  lemma AcceptedMeans(networks: seq<Network>, seen: seq<Seen>)
    ensures Gathered(networks, seen).Some? && MatchesAll(networks, Gathered(networks, seen).value) <==>
      Consistent(networks, seen) && AllConfirmed(networks, seen)
  {
    GatheredMeans(networks, seen);
    if Consistent(networks, seen) {
      var views := Gathered(networks, seen).value;
      forall k | 0 <= k < |networks| ensures Matches(networks[k], views) <==> Confirmed(networks[k], seen) {
        MatchesMeans(networks[k], views, seen, networks);
      }
    }
  }

  // ---- The result ----

  /** What the network's bridge is called in the reports; its declared name if there is none. */
  ghost predicate BridgeIs(seen: seq<Seen>, n: Network, name: string) {
    exists i :: 0 <= i < |seen| && seen[i].name == n.name && seen[i].bridge == name
  }

  /** The interface belongs to a network whose bridge may move. */
  ghost predicate OwnedBy(l: Link, n: Network) {
    n.dynamic && Identity(l) == Managed(n.name)
  }

  lemma ReportedBridge(networks: seq<Network>, seen: seq<Seen>, k: nat)
    requires k < |networks| && Gathered(networks, seen).Some? && MatchesAll(networks, Gathered(networks, seen).value)
    ensures networks[k].name in Gathered(networks, seen).value
    ensures var v := Gathered(networks, seen).value[networks[k].name];
      && BridgeIs(seen, networks[k], v.bridge)
      && (forall name :: BridgeIs(seen, networks[k], name) ==> name == v.bridge)
      && (forall p :: p in v.pairs <==> Planned(networks[k], p))
  {
    var views := Gathered(networks, seen).value;
    GatheredMeans(networks, seen);
    var n := networks[k];
    assert Matches(n, views);
    assert Faithful(views[n.name], seen, n.name);
    var r :| 0 <= r < |seen| && Reports(seen[r], n.name);
    PlanMeans(n);
    hide Given, Planned, Plan;
  }

  /** Every network keeps what it is, and its bridge is called what the reports call it. */
  lemma NetworksMean(c: Config, seen: seq<Seen>, k: nat)
    requires Validated(c) && c.enabled && Projected(c, seen).Some? && k < |c.networks|
    ensures var v := Projected(c, seen).value;
      && |v.networks| == |c.networks|
      && (var n, m := c.networks[k], v.networks[k];
          && m.name == n.name && m.driver == n.driver && m.dynamic == n.dynamic
          && BridgeIs(seen, n, m.bridge)
          && forall p :: Planned(m, p) <==> Planned(n, p))
  {
    var views := Gathered(c.networks, seen).value;
    ReportedBridge(c.networks, seen, k);
    PlansStay(c, seen, k);
    assert Matches(c.networks[k], views);
    var n, m := c.networks[k], Projected(c, seen).value.networks[k];
    PlanMeans(n);
    PlanMeans(m);
    hide Gathered, Planned, Plan, Validated;
  }

  /** The interface of a network that may move has the reported bridge name and the network's subnets; others are untouched. */
  lemma LinksMean(c: Config, seen: seq<Seen>, j: nat)
    requires Validated(c) && c.enabled && Projected(c, seen).Some? && j < |c.links|
    ensures |Projected(c, seen).value.links| == |c.links|
    ensures var l, m := c.links[j], Projected(c, seen).value.links[j];
      && ((forall k :: 0 <= k < |c.networks| ==> !OwnedBy(l, c.networks[k])) ==> m == l)
      && forall k :: 0 <= k < |c.networks| && OwnedBy(l, c.networks[k]) ==>
           && m == l.(name := m.name, cidrs := m.cidrs) && BridgeIs(seen, c.networks[k], m.name)
           && forall s :: s in m.cidrs <==> s in c.networks[k].subnets
  {
    var views := Gathered(c.networks, seen).value;
    var l, n := c.links[j], |c.networks|;
    var owner := OwnerOf(l, c.networks, n);
    assert Projected(c, seen).value.links[j] == ProjectedLink(l, c.networks, n, views);
    assert forall i, k :: 0 <= i < k < n ==> c.networks[i].name != c.networks[k].name;
    forall k | 0 <= k < n && OwnedBy(l, c.networks[k]) ensures k == owner {
      ManagedIsInjective(c.networks[owner].name, c.networks[k].name);
    }
    if owner < n {
      ReportedBridge(c.networks, seen, owner);
      assert Matches(c.networks[owner], views);
      hide Gathered, MatchesAll, Validated, Planned, BridgeIs, Projected, Matches;
      PlanMeans(c.networks[owner]);
      hide Plan;
      SubnetsMean(c.networks[owner], views[c.networks[owner].name].pairs);
    }
  }

  lemma SubnetsMean(n: Network, pairs: seq<Pair>)
    requires forall p :: p in pairs <==> Planned(n, p)
    requires |n.subnets| <= |n.gateways|
    ensures forall s :: s in Subnets(pairs) <==> s in n.subnets
  {
    forall s ensures s in Subnets(pairs) <==> s in n.subnets {
      if i :| 0 <= i < |n.subnets| && n.subnets[i] == s {
        var p := Pair(n.subnets[i], n.gateways[i]);
        assert Planned(n, p);
        var j :| 0 <= j < |pairs| && pairs[j] == p;
        assert Subnets(pairs)[j] == s;
      }
      if j :| 0 <= j < |pairs| && Subnets(pairs)[j] == s {
        assert pairs[j] in pairs;
      }
    }
  }

  // ---- When the result stands ----

  /** The link after the projection, and whether it is a network's. */
  lemma OwnerMeans(c: Config, views: Views, j: nat, k: nat)
    requires Validated(c) && MatchesAll(c.networks, views) && j < |c.links| && k < |c.networks|
    requires OwnedBy(c.links[j], c.networks[k])
    ensures OwnerOf(c.links[j], c.networks, |c.networks|) == k
    ensures c.links[j].name == c.networks[k].bridge
    ensures c.networks[k].name in views && Projection(c, views).links[j].name == views[c.networks[k].name].bridge
    ensures Projection(c, views).networks[k].bridge == views[c.networks[k].name].bridge
  {
    var owner := OwnerOf(c.links[j], c.networks, |c.networks|);
    assert forall i, m :: 0 <= i < m < |c.networks| ==> c.networks[i].name != c.networks[m].name;
    ManagedIsInjective(c.networks[owner].name, c.networks[k].name);
    OwnedIsBridge(c, j, k);
    assert Matches(c.networks[k], views);
  }

  /** The carrier of a network carries it still. */
  lemma CarriedStill(c: Config, views: Views, k: nat)
    requires Validated(c) && MatchesAll(c.networks, views) && k < |c.networks|
    ensures var v := Projection(c, views);
      NetworkOk(v, v.networks[k])
  {
    var v, n := Projection(c, views), c.networks[k];
    assert NetworkOk(c, n) && Matches(n, views);
    ReboundPlan(n, views);
    var j :| 0 <= j < |c.links| && Carries(c.links[j], n);
    IdentityKept(c.links[j], c.networks, |c.networks|, views, c);
    if n.dynamic {
      OwnerMeans(c, views, j, k);
    } else {
      StaticCarrier(c, views, j, k);
    }
    hide Plan, Validated, MatchesAll, Matches;
    assert Carries(v.links[j], v.networks[k]);
  }

  lemma StaticHasNoOwner(c: Config, j: nat, k: nat)
    requires Validated(c) && j < |c.links| && k < |c.networks|
    requires !c.networks[k].dynamic && Carries(c.links[j], c.networks[k])
    ensures OwnerOf(c.links[j], c.networks, |c.networks|) == |c.networks|
  {
    OneNetworkEach(c);
    hide Validated;
    var owner := OwnerOf(c.links[j], c.networks, |c.networks|);
    if owner < |c.networks| {
      OwnedIsBridge(c, j, owner);
    }
  }

  lemma OneNetworkEach(c: Config)
    requires Validated(c)
    ensures forall a, b :: 0 <= a < |c.networks| && 0 <= b < |c.networks| && c.networks[a].bridge == c.networks[b].bridge ==> a == b
  {
    hide NetworkOk, LinksOk, ZonesOk;
  }

  lemma StaticCarrier(c: Config, views: Views, j: nat, k: nat)
    requires Validated(c) && MatchesAll(c.networks, views) && j < |c.links| && k < |c.networks|
    requires !c.networks[k].dynamic && Carries(c.links[j], c.networks[k])
    ensures Projection(c, views).links[j] == c.links[j] && Projection(c, views).networks[k] == c.networks[k]
  {
    StaticHasNoOwner(c, j, k);
    assert Matches(c.networks[k], views);
    hide Validated, MatchesAll, Matches, OwnerOf, Carries, Replacements, ProjectedZones;
  }

  /** Where the new interface names differ, so do the networks' bridges. */
  lemma BridgesDiffer(c: Config, views: Views, i: nat, k: nat)
    requires Validated(c) && MatchesAll(c.networks, views) && i < k < |c.networks|
    requires forall a, b :: 0 <= a < b < |c.links| ==> Projection(c, views).links[a].name != Projection(c, views).links[b].name
    ensures Projection(c, views).networks[i].bridge != Projection(c, views).networks[k].bridge
  {
    var v := Projection(c, views);
    CarriedStill(c, views, i);
    CarriedStill(c, views, k);
    var a :| 0 <= a < |v.links| && Carries(v.links[a], v.networks[i]);
    var b :| 0 <= b < |v.links| && Carries(v.links[b], v.networks[k]);
    assert v.networks[i].name == c.networks[i].name && v.networks[k].name == c.networks[k].name;
    assert v.networks[i].dynamic == c.networks[i].dynamic && v.networks[k].dynamic == c.networks[k].dynamic;
    assert c.networks[i].name != c.networks[k].name && c.networks[i].bridge != c.networks[k].bridge;
    assert Matches(c.networks[i], views) && Matches(c.networks[k], views);
    if v.networks[i].bridge == v.networks[k].bridge {
      assert a == b;
      hide Validated, MatchesAll, Projection, Matches;
      SameIdentity(v.links[a], v.networks[i], v.networks[k]);
    }
  }

  /** One link carries two networks only if both stay where they are, on one bridge. */
  lemma SameIdentity(l: Link, m: Network, n: Network)
    requires Carries(l, m) && Carries(l, n) && LinkName(m.bridge) && LinkName(n.bridge)
    ensures m.name == n.name || (!m.dynamic && !n.dynamic && m.bridge == n.bridge)
  {
    assert Managed(m.name)[6] == ':' && Managed(n.name)[6] == ':';
    if Managed(m.name) == Managed(n.name) {
      ManagedIsInjective(m.name, n.name);
    }
  }

  /** The new interface names are all different. */
  ghost predicate NamesDiffer(c: Config, views: Views)
    requires MatchesAll(c.networks, views)
  {
    forall a, b :: 0 <= a < b < |c.links| ==> Projection(c, views).links[a].name != Projection(c, views).links[b].name
  }

  lemma LinksStand(c: Config, views: Views)
    requires Validated(c) && MatchesAll(c.networks, views)
    ensures LinksOk(Projection(c, views).links) <==> NamesDiffer(c, views)
  {
    IdentitiesKept(c, |c.networks|, views);
    var v := Projection(c, views);
    forall j | 0 <= j < |c.links| ensures LinkName(v.links[j].name) {
      NewNameStands(c, views, j);
    }
    assert LinksOk(c.links);
    hide Validated, MatchesAll, Projection, LinkName;
  }

  lemma NewNameStands(c: Config, views: Views, j: nat)
    requires Validated(c) && MatchesAll(c.networks, views) && j < |c.links|
    ensures LinkName(Projection(c, views).links[j].name)
  {
    var owner := OwnerOf(c.links[j], c.networks, |c.networks|);
    if owner < |c.networks| {
      assert Matches(c.networks[owner], views);
    }
    hide Validated, Plan, Replacements, ProjectedZones;
  }

  /** Every name a zone ends up with is that of an interface. */
  lemma ZonesStand(c: Config, views: Views)
    requires Validated(c) && MatchesAll(c.networks, views)
    ensures ZonesOk(Projection(c, views))
  {
    var v, m := Projection(c, views), Replacements(c.networks, |c.networks|, views);
    forall z, j | 0 <= z < |v.zones| && 0 <= j < |v.zones[z].links| ensures Declares(v.links, v.zones[z].links[j]) {
      var names := c.zones[z].links;
      SortMembers(Replaced(names, m), (s: string) => s);
      assert v.zones[z].links[j] in Replaced(names, m);
      var i :| 0 <= i < |names| && Replaced(names, m)[i] == v.zones[z].links[j];
      NewNameDeclared(c, views, z, i);
    }
  }

  lemma NewNameDeclared(c: Config, views: Views, z: nat, i: nat)
    requires Validated(c) && MatchesAll(c.networks, views) && z < |c.zones| && i < |c.zones[z].links|
    ensures Declares(Projection(c, views).links, Replaced(c.zones[z].links, Replacements(c.networks, |c.networks|, views))[i])
  {
    var v, m, n := Projection(c, views), Replacements(c.networks, |c.networks|, views), c.zones[z].links[i];
    if n in m {
      OnlyOldBridges(c.networks, |c.networks|, views, n);
      var k :| 0 <= k < |c.networks| && Replaces(c.networks[k], views, n, m[n]);
      assert NetworkOk(c, c.networks[k]);
      var j :| 0 <= j < |c.links| && Carries(c.links[j], c.networks[k]);
      OwnerMeans(c, views, j, k);
      assert v.links[j].name == m[n];
    } else {
      DeclaredLink(c, z, i);
      var l :| 0 <= l < |c.links| && c.links[l].name == n;
      ForeignHasNoOwner(c, views, l);
      assert v.links[l] == c.links[l];
    }
  }

  lemma NetworksStand(c: Config, views: Views)
    requires Validated(c) && MatchesAll(c.networks, views) && NamesDiffer(c, views)
    ensures NetworksOk(Projection(c, views))
  {
    var v := Projection(c, views);
    NamesStay(c, views);
    forall k | 0 <= k < |c.networks| ensures NetworkOk(v, v.networks[k]) {
      CarriedStill(c, views, k);
    }
    forall i, k | 0 <= i < k < |c.networks| ensures v.networks[i].bridge != v.networks[k].bridge {
      BridgesDiffer(c, views, i, k);
    }
    assert NetworksOk(c);
    hide Validated, MatchesAll, Projection, NetworkOk;
  }

  /** What the interface is called afterwards: its network's reported bridge, if it belongs to one that may move. */
  ghost predicate Renames(c: Config, seen: seq<Seen>, l: Link, name: string) {
    if exists k :: 0 <= k < |c.networks| && OwnedBy(l, c.networks[k]) then
      exists k :: 0 <= k < |c.networks| && OwnedBy(l, c.networks[k]) && BridgeIs(seen, c.networks[k], name)
    else name == l.name
  }

  /** No two interfaces end up with one name. */
  ghost predicate NoClash(c: Config, seen: seq<Seen>) {
    forall a, b, x, y :: 0 <= a < b < |c.links| && Renames(c, seen, c.links[a], x) && Renames(c, seen, c.links[b], y) ==> x != y
  }

  /** The gathered reports, where they match every declared network. */
  ghost predicate Gathers(c: Config, seen: seq<Seen>, views: Views) {
    Gathered(c.networks, seen) == Some(views) && MatchesAll(c.networks, views)
  }

  lemma OwnedRenames(c: Config, seen: seq<Seen>, views: Views, j: nat, k: nat, name: string)
    requires Validated(c) && Gathers(c, seen, views) && j < |c.links| && k < |c.networks| && OwnedBy(c.links[j], c.networks[k])
    ensures BridgeIs(seen, c.networks[k], name) <==> name == Projection(c, views).links[j].name
  {
    hide Gathered, MatchesAll, Validated, Projection, OwnedBy, BridgeIs;
    OwnerMeans(c, views, j, k);
    ReportedBridge(c.networks, seen, k);
  }

  lemma RenamesOwned(c: Config, seen: seq<Seen>, l: Link, name: string, after: string)
    requires exists k :: 0 <= k < |c.networks| && OwnedBy(l, c.networks[k])
    requires forall k :: 0 <= k < |c.networks| && OwnedBy(l, c.networks[k]) ==> (BridgeIs(seen, c.networks[k], name) <==> name == after)
    ensures Renames(c, seen, l, name) <==> name == after
  {
    hide BridgeIs, OwnedBy;
  }

  lemma RenamesMeans(c: Config, seen: seq<Seen>, views: Views, j: nat, name: string)
    requires Validated(c) && Gathers(c, seen, views) && j < |c.links|
    ensures Renames(c, seen, c.links[j], name) <==> name == Projection(c, views).links[j].name
  {
    var after := Projection(c, views).links[j].name;
    if exists k :: 0 <= k < |c.networks| && OwnedBy(c.links[j], c.networks[k]) {
      hide Projection, Gathers, Validated, MatchesAll, BridgeIs, OwnedBy, Renames;
      forall k | 0 <= k < |c.networks| && OwnedBy(c.links[j], c.networks[k])
        ensures BridgeIs(seen, c.networks[k], name) <==> name == after
      {
        OwnedRenames(c, seen, views, j, k, name);
      }
      RenamesOwned(c, seen, c.links[j], name, after);
    } else {
      UnownedStays(c, views, j);
      hide Projection, Gathers, Validated, MatchesAll, BridgeIs, OwnedBy;
    }
  }

  lemma UnownedStays(c: Config, views: Views, j: nat)
    requires MatchesAll(c.networks, views) && j < |c.links|
    requires forall k :: 0 <= k < |c.networks| ==> !OwnedBy(c.links[j], c.networks[k])
    ensures Projection(c, views).links[j] == c.links[j]
  {
    var owner := OwnerOf(c.links[j], c.networks, |c.networks|);
    assert owner < |c.networks| ==> OwnedBy(c.links[j], c.networks[owner]);
    assert Projection(c, views).links[j] == ProjectedLink(c.links[j], c.networks, |c.networks|, views);
  }

  lemma ClashMeans(c: Config, seen: seq<Seen>, views: Views)
    requires Validated(c) && Gathers(c, seen, views)
    ensures NamesDiffer(c, views) <==> NoClash(c, seen)
  {
    var links := Projection(c, views).links;
    hide Gathered, MatchesAll, Validated, Projection, Renames;
    forall j, name | 0 <= j < |c.links| ensures Renames(c, seen, c.links[j], name) <==> name == links[j].name {
      RenamesMeans(c, seen, views, j, name);
    }
    if NoClash(c, seen) {
      forall a, b | 0 <= a < b < |c.links| ensures links[a].name != links[b].name {
        assert Renames(c, seen, c.links[a], links[a].name) && Renames(c, seen, c.links[b], links[b].name);
      }
    }
  }

  lemma ResultStands(c: Config, views: Views)
    requires Validated(c) && MatchesAll(c.networks, views)
    ensures Validated(Projection(c, views)) <==> NamesDiffer(c, views)
  {
    LinksStand(c, views);
    ZonesStand(c, views);
    if NamesDiffer(c, views) {
      NetworksStand(c, views);
    }
    hide MatchesAll, NamesDiffer, LinksOk, NetworksOk, ZonesOk, Projection;
  }

  /**
   A projection of a validated configuration is refused only for what the reports say: it succeeds exactly
   if they are consistent, confirm every declared network, and leave no two interfaces with one name.
   */
  lemma ProjectsExactly(c: Config, seen: seq<Seen>)
    requires Validated(c) && c.enabled
    ensures Projected(c, seen).Some? <==> Consistent(c.networks, seen) && AllConfirmed(c.networks, seen) && NoClash(c, seen)
  {
    AcceptedMeans(c.networks, seen);
    hide Consistent, AllConfirmed, NoClash, MatchesAll, Gathered, Projection;
    if Gathered(c.networks, seen).Some? && MatchesAll(c.networks, Gathered(c.networks, seen).value) {
      ClashMeans(c, seen, Gathered(c.networks, seen).value);
      ResultStands(c, Gathered(c.networks, seen).value);
    }
    hide Validated;
  }
}
