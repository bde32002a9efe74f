/**
 Projecting observed Docker bridges onto the declared configuration: bridges may have been renamed,
 even swapped, but identities, address plans and zones stay with the network they belong to. Address
 texts are canonical already.
 */
module DockerProjection {
  import opened Wrappers
  import opened Texts

  datatype Link = Link(name: string, container: bool, zone: string, cidrs: seq<string>, provenanceName: string, id: bv8)

  datatype Network = Network(
    name: string, driver: string, bridge: string, dynamic: bool, subnets: seq<string>, gateways: seq<string>)

  datatype Zone = Zone(name: string, links: seq<string>)

  datatype Config = Config(enabled: bool, links: seq<Link>, zones: seq<Zone>, networks: seq<Network>)

  /** One subnet of one network as Docker reports it. */
  datatype Seen = Seen(name: string, driver: string, bridge: string, subnet: string, gateway: string)

  datatype Pair = Pair(subnet: string, gateway: string)

  /** A network as observed: its pairs are kept in ascending order of subnet. */
  datatype View = View(bridge: string, driver: string, pairs: seq<Pair>)

  // ---- Address plans ----

  function Subnets(pairs: seq<Pair>): (r: seq<string>)
    ensures |r| == |pairs| && forall i :: 0 <= i < |pairs| ==> r[i] == pairs[i].subnet
  {
    seq(|pairs|, i requires 0 <= i < |pairs| => pairs[i].subnet)
  }

  function Gateways(pairs: seq<Pair>): (r: seq<string>)
    ensures |r| == |pairs| && forall i :: 0 <= i < |pairs| ==> r[i] == pairs[i].gateway
  {
    seq(|pairs|, i requires 0 <= i < |pairs| => pairs[i].gateway)
  }

  function Zip(subnets: seq<string>, gateways: seq<string>): (r: seq<Pair>)
    requires |subnets| == |gateways|
    ensures |r| == |subnets| && forall i :: 0 <= i < |r| ==> r[i] == Pair(subnets[i], gateways[i])
  {
    seq(|subnets|, i requires 0 <= i < |subnets| => Pair(subnets[i], gateways[i]))
  }

  predicate DistinctSubnets(pairs: seq<Pair>) {
    forall i, j :: 0 <= i < j < |pairs| ==> pairs[i].subnet != pairs[j].subnet
  }

  function InOrder(pairs: seq<Pair>): seq<Pair> {
    SortBy(pairs, (p: Pair) => p.subnet)
  }

  /** The declared plan of a network in ascending order, if it is one gateway for each distinct subnet. */
  function Plan(n: Network): Option<seq<Pair>> {
    if n.subnets == [] || |n.subnets| != |n.gateways| || !DistinctSubnets(Zip(n.subnets, n.gateways)) then None
    else Some(InOrder(Zip(n.subnets, n.gateways)))
  }

  lemma {:induction false} SortedIsFixed<T>(xs: seq<T>, key: T -> string)
    requires SortedBy(xs, key)
    ensures SortBy(xs, key) == xs
  {
    if xs != [] {
      SortedIsFixed(xs[1..], key);
      if |xs| > 1 {
        assert Leq(key(xs[0]), key(xs[1..][0]));
      }
    }
  }

  lemma InOrderTwice(pairs: seq<Pair>)
    ensures InOrder(InOrder(pairs)) == InOrder(pairs)
  {
    SortSorts(pairs, (p: Pair) => p.subnet);
    SortedIsFixed(InOrder(pairs), (p: Pair) => p.subnet);
  }

  lemma ZipUnzip(pairs: seq<Pair>)
    ensures Zip(Subnets(pairs), Gateways(pairs)) == pairs
  {
  }

  // ---- Validated configurations ----

  function Identity(l: Link): string {
    if l.provenanceName != "" then l.provenanceName else l.name
  }

  function Managed(network: string): string {
    "docker:" + network
  }

  lemma ManagedIsInjective(a: string, b: string)
    requires Managed(a) == Managed(b)
    ensures a == b
  {
    assert Managed(a)[7..] == a && Managed(b)[7..] == b;
  }

  /** Interface names contain no colon, so no bare name is a managed identity. */
  predicate LinkName(s: string) {
    s != "" && forall i :: 0 <= i < |s| ==> s[i] != ':'
  }

  lemma NameIsNotManaged(l: Link, network: string)
    requires LinkName(l.name) && Identity(l) == Managed(network)
    ensures l.provenanceName != ""
  {
    assert Managed(network)[6] == ':';
  }

  predicate Declares(links: seq<Link>, name: string) {
    exists i :: 0 <= i < |links| && links[i].name == name
  }

  predicate NetworkOk(c: Config, n: Network) {
    Plan(n).Some? && exists i :: 0 <= i < |c.links| && Carries(c.links[i], n)
  }

  /** The link is the network's bridge, with an identity that fits. */
  predicate Carries(l: Link, n: Network) {
    && l.name == n.bridge && l.container
    && (Identity(l) == Managed(n.name) || (!n.dynamic && Identity(l) == n.bridge))
  }

  predicate LinksOk(links: seq<Link>) {
    && (forall i :: 0 <= i < |links| ==> LinkName(links[i].name))
    && (forall i, j :: 0 <= i < j < |links| ==>
      links[i].name != links[j].name && Identity(links[i]) != Identity(links[j]) && links[i].id != links[j].id)
  }

  predicate NetworksOk(c: Config) {
    && (forall i :: 0 <= i < |c.networks| ==> NetworkOk(c, c.networks[i]))
    && (forall i, j :: 0 <= i < j < |c.networks| ==>
      c.networks[i].name != c.networks[j].name && c.networks[i].bridge != c.networks[j].bridge)
  }

  predicate ZonesOk(c: Config) {
    forall i, j :: 0 <= i < |c.zones| && 0 <= j < |c.zones[i].links| ==> Declares(c.links, c.zones[i].links[j])
  }

  /** The part of validation that the projection relies on, before and after. */
  predicate Validated(c: Config) {
    LinksOk(c.links) && NetworksOk(c) && ZonesOk(c)
  }

  // ---- The projection ----

  type Views = map<string, View>

  predicate Authorized(networks: seq<Network>, name: string) {
    exists i :: 0 <= i < |networks| && networks[i].name == name
  }

  predicate SeenOk(networks: seq<Network>, s: Seen) {
    Authorized(networks, s.name) && s.driver == "bridge" && LinkName(s.bridge)
  }

  predicate Agrees(views: Views, s: Seen) {
    s.name in views ==>
      && views[s.name].bridge == s.bridge && views[s.name].driver == s.driver
      && forall i :: 0 <= i < |views[s.name].pairs| ==> views[s.name].pairs[i].subnet != s.subnet
  }

  function WithSeen(views: Views, s: Seen): Views {
    var pairs := (if s.name in views then views[s.name].pairs else []) + [Pair(s.subnet, s.gateway)];
    views[s.name := View(s.bridge, s.driver, InOrder(pairs))]
  }

  /** Every report, gathered by network; nothing if one is unauthorized, malformed or contradictory. */
  function Gathered(networks: seq<Network>, seen: seq<Seen>): Option<Views> {
    if seen == [] then Some(map[])
    else
      var before, s := Gathered(networks, seen[..|seen| - 1]), seen[|seen| - 1];
      if before.None? || !SeenOk(networks, s) || !Agrees(before.value, s) then None
      else Some(WithSeen(before.value, s))
  }

  /** What was observed for a network is what was declared for it, the bridge name apart. */
  predicate Matches(n: Network, views: Views) {
    && n.name in views && LinkName(views[n.name].bridge)
    && views[n.name].driver == n.driver && Plan(n) == Some(views[n.name].pairs)
    && (!n.dynamic ==> views[n.name].bridge == n.bridge)
  }

  predicate MatchesAll(networks: seq<Network>, views: Views) {
    forall i :: 0 <= i < |networks| ==> Matches(networks[i], views)
  }

  function Rebound(n: Network, views: Views): Network
    requires n.name in views
  {
    if !n.dynamic then n
    else n.(bridge := views[n.name].bridge, subnets := Subnets(views[n.name].pairs), gateways := Gateways(views[n.name].pairs))
  }

  function ReboundNetworks(networks: seq<Network>, views: Views): (r: seq<Network>)
    requires MatchesAll(networks, views)
    ensures |r| == |networks| && forall i :: 0 <= i < |r| ==> r[i] == Rebound(networks[i], views)
  {
    seq(|networks|, i requires 0 <= i < |networks| => Rebound(networks[i], views))
  }

  /** The position of the first of the n leading dynamic networks whose identity the link carries, or n. */
  function OwnerOf(l: Link, networks: seq<Network>, n: nat): (k: nat)
    requires n <= |networks|
    ensures k <= n
    ensures k < n ==> networks[k].dynamic && Managed(networks[k].name) == Identity(l)
    ensures forall j :: 0 <= j < k ==> !(networks[j].dynamic && Managed(networks[j].name) == Identity(l))
  {
    if n == 0 then 0
    else
      var k := OwnerOf(l, networks, n - 1);
      if k < n - 1 then k
      else if networks[n - 1].dynamic && Managed(networks[n - 1].name) == Identity(l) then n - 1
      else n
  }

  function Renamed(l: Link, v: View): Link {
    l.(name := v.bridge, cidrs := Subnets(v.pairs))
  }

  /** The link after the first n networks are projected. */
  function ProjectedLink(l: Link, networks: seq<Network>, n: nat, views: Views): Link
    requires n <= |networks| && MatchesAll(networks, views)
  {
    var k := OwnerOf(l, networks, n);
    if k == n then l else Renamed(l, views[networks[k].name])
  }

  function ProjectedLinks(links: seq<Link>, networks: seq<Network>, n: nat, views: Views): (r: seq<Link>)
    requires n <= |networks| && MatchesAll(networks, views)
    ensures |r| == |links| && forall i :: 0 <= i < |r| ==> r[i] == ProjectedLink(links[i], networks, n, views)
  {
    seq(|links|, i requires 0 <= i < |links| => ProjectedLink(links[i], networks, n, views))
  }

  /** Old bridge names of dynamic networks to new ones, for the first n networks. */
  function Replacements(networks: seq<Network>, n: nat, views: Views): map<string, string>
    requires n <= |networks| && MatchesAll(networks, views)
  {
    if n == 0 then map[]
    else
      var before, last := Replacements(networks, n - 1, views), networks[n - 1];
      if last.dynamic then before[last.bridge := views[last.name].bridge] else before
  }

  function Replaced(names: seq<string>, m: map<string, string>): (r: seq<string>)
    ensures |r| == |names| && forall i :: 0 <= i < |r| ==> r[i] == if names[i] in m then m[names[i]] else names[i]
  {
    seq(|names|, i requires 0 <= i < |names| => if names[i] in m then m[names[i]] else names[i])
  }

  function SortedNames(names: seq<string>): seq<string> {
    SortBy(names, (s: string) => s)
  }

  function ProjectedZone(z: Zone, m: map<string, string>): Zone {
    z.(links := SortedNames(Replaced(z.links, m)))
  }

  function ProjectedZones(zones: seq<Zone>, m: map<string, string>): (r: seq<Zone>)
    ensures |r| == |zones| && forall i :: 0 <= i < |r| ==> r[i] == ProjectedZone(zones[i], m)
  {
    seq(|zones|, i requires 0 <= i < |zones| => ProjectedZone(zones[i], m))
  }

  function Projection(c: Config, views: Views): Config
    requires MatchesAll(c.networks, views)
  {
    var n := |c.networks|;
    Config(c.enabled, ProjectedLinks(c.links, c.networks, n, views),
      ProjectedZones(c.zones, Replacements(c.networks, n, views)), ReboundNetworks(c.networks, views))
  }

  /** The whole operation: nothing to do with Docker off; otherwise gather, match, project and validate. */
  function Projected(c: Config, seen: seq<Seen>): Option<Config> {
    if !c.enabled then Some(c)
    else
      var views := Gathered(c.networks, seen);
      if views.None? || !MatchesAll(c.networks, views.value) then None
      else if !Validated(Projection(c, views.value)) then None
      else Some(Projection(c, views.value))
  }

  // ---- The loops ----

  method Gather(networks: seq<Network>, seen: seq<Seen>) returns (views: Option<Views>)
    ensures views == Gathered(networks, seen)
  {
    hide WithSeen, SeenOk, Agrees;
    var gathered: Views := map[];
    for i := 0 to |seen|
      invariant Gathered(networks, seen[..i]) == Some(gathered)
    {
      NextReport(networks, seen, i);
      hide Gathered;
      if !SeenOk(networks, seen[i]) || !Agrees(gathered, seen[i]) {
        GatheringStops(networks, seen, i + 1);
        return None;
      }
      gathered := WithSeen(gathered, seen[i]);
    }
    assert seen[..|seen|] == seen;
    views := Some(gathered);
  }

  lemma NextReport(networks: seq<Network>, seen: seq<Seen>, i: nat)
    requires i < |seen| && Gathered(networks, seen[..i]).Some?
    ensures Gathered(networks, seen[..i + 1]) ==
      var views := Gathered(networks, seen[..i]).value;
      if !SeenOk(networks, seen[i]) || !Agrees(views, seen[i]) then None else Some(WithSeen(views, seen[i]))
  {
    hide WithSeen, SeenOk, Agrees;
    assert seen[..i + 1][..i] == seen[..i];
  }

  lemma {:induction false} GatheringStops(networks: seq<Network>, seen: seq<Seen>, k: nat)
    requires k <= |seen| && Gathered(networks, seen[..k]).None?
    ensures Gathered(networks, seen).None?
    decreases |seen| - k
  {
    if k < |seen| {
      assert seen[..k + 1][..k] == seen[..k];
      GatheringStops(networks, seen, k + 1);
    } else {
      assert seen[..k] == seen;
    }
  }

  /** The networks before i are bound, with their links and replacements; the rest are untouched. */
  predicate BoundTo(c: Config, views: Views, i: nat, links: seq<Link>, networks: seq<Network>, m: map<string, string>)
    requires i <= |c.networks| && MatchesAll(c.networks, views)
  {
    && links == ProjectedLinks(c.links, c.networks, i, views)
    && FirstRebound(c.networks, views, i, networks)
    && m == Replacements(c.networks, i, views)
  }

  predicate FirstRebound(before: seq<Network>, views: Views, i: nat, networks: seq<Network>)
    requires i <= |before| && MatchesAll(before, views)
  {
    && |networks| == |before|
    && (forall k :: 0 <= k < i ==> networks[k] == ReboundNetworks(before, views)[k])
    && (forall k :: i <= k < |before| ==> networks[k] == before[k])
  }

  /** Rewrites the bound networks and links one network at a time. */
  method Bind(c: Config, views: Views) returns (links: seq<Link>, networks: seq<Network>, m: map<string, string>)
    requires Validated(c) && MatchesAll(c.networks, views)
    ensures BoundTo(c, views, |c.networks|, links, networks, m)
  {
    hide *;
    links, networks, m := c.links, c.networks, map[];
    NothingBound(c, views);
    for i := 0 to |c.networks|
      invariant BoundTo(c, views, i, links, networks, m)
    {
      links, networks, m := BindOne(c, views, i, links, networks, m);
    }
  }

  lemma NothingBound(c: Config, views: Views)
    requires MatchesAll(c.networks, views)
    ensures BoundTo(c, views, 0, c.links, c.networks, map[])
  {
    assert c.links == ProjectedLinks(c.links, c.networks, 0, views);
  }

  lemma AllBound(c: Config, views: Views, links: seq<Link>, networks: seq<Network>, m: map<string, string>)
    requires MatchesAll(c.networks, views) && BoundTo(c, views, |c.networks|, links, networks, m)
    ensures links == ProjectedLinks(c.links, c.networks, |c.networks|, views)
    ensures networks == ReboundNetworks(c.networks, views)
    ensures m == Replacements(c.networks, |c.networks|, views)
  {
    hide MatchesAll, Rebound, Replacements, ProjectedLinks;
  }

  method BindOne(c: Config, views: Views, i: nat, links0: seq<Link>, networks0: seq<Network>, m0: map<string, string>)
    returns (links: seq<Link>, networks: seq<Network>, m: map<string, string>)
    requires Validated(c) && MatchesAll(c.networks, views) && i < |c.networks|
    requires BoundTo(c, views, i, links0, networks0, m0)
    ensures BoundTo(c, views, i + 1, links, networks, m)
  {
    NextNetwork(c.networks, views, i, networks0);
    hide Matches, MatchesAll, Validated, ProjectedLinks, Rebound, FirstRebound;
    var network := c.networks[i];
    links, networks, m := links0, networks0[i := Rebound(network, views)], m0;
    if network.dynamic {
      links := RenameOwner(c, links, i, views);
      m := m[network.bridge := views[network.name].bridge];
    } else {
      StaticChangesNothing(c.links, c.networks, i, views);
    }
  }

  lemma NextNetwork(before: seq<Network>, views: Views, i: nat, networks: seq<Network>)
    requires i < |before| && MatchesAll(before, views) && FirstRebound(before, views, i, networks)
    ensures before[i].name in views && |networks| == |before|
    ensures FirstRebound(before, views, i + 1, networks[i := Rebound(before[i], views)])
  {
    assert Matches(before[i], views);
    assert ReboundNetworks(before, views)[i] == Rebound(before[i], views);
    hide MatchesAll, Matches, ReboundNetworks, Rebound;
  }

  lemma StaticChangesNothing(links: seq<Link>, networks: seq<Network>, i: nat, views: Views)
    requires i < |networks| && MatchesAll(networks, views) && !networks[i].dynamic
    ensures ProjectedLinks(links, networks, i + 1, views) == ProjectedLinks(links, networks, i, views)
  {
  }

  /** Finds the link that carries the network's identity, and gives it the observed name and subnets. */
  method RenameOwner(c: Config, links: seq<Link>, i: nat, views: Views) returns (r: seq<Link>)
    requires Validated(c) && MatchesAll(c.networks, views) && i < |c.networks| && c.networks[i].dynamic
    requires links == ProjectedLinks(c.links, c.networks, i, views)
    ensures r == ProjectedLinks(c.links, c.networks, i + 1, views)
  {
    ghost var own := OwnerExists(c, i);
    IdentitiesKept(c, i, views);
    var network := c.networks[i];
    assert Matches(network, views);
    assert Identity(links[own]) == Managed(network.name);
    var j := FindIdentity(links, Managed(network.name), own);
    OnlyOwner(c, i, j, views);
    r := links[j := Renamed(links[j], views[network.name])];
  }

  method FindIdentity(links: seq<Link>, identity: string, ghost own: nat) returns (j: nat)
    requires own < |links| && Identity(links[own]) == identity
    ensures j < |links| && Identity(links[j]) == identity
  {
    j := 0;
    for k := 0 to |links|
      invariant k <= own
    {
      if Identity(links[k]) == identity {
        return k;
      }
    }
    assert false;
  }

  lemma OwnerExists(c: Config, i: nat) returns (own: nat)
    requires Validated(c) && i < |c.networks| && c.networks[i].dynamic
    ensures own < |c.links| && Identity(c.links[own]) == Managed(c.networks[i].name)
  {
    assert NetworkOk(c, c.networks[i]);
    own :| 0 <= own < |c.links| && Carries(c.links[own], c.networks[i]);
  }

  lemma IdentitiesKept(c: Config, n: nat, views: Views)
    requires Validated(c) && MatchesAll(c.networks, views) && n <= |c.networks|
    ensures var links := ProjectedLinks(c.links, c.networks, n, views);
      forall j :: 0 <= j < |links| ==> Identity(links[j]) == Identity(c.links[j]) && links[j].id == c.links[j].id
  {
    hide Plan, NetworksOk, ZonesOk, OwnerOf;
    forall j | 0 <= j < |c.links|
      ensures var l := ProjectedLink(c.links[j], c.networks, n, views);
        Identity(l) == Identity(c.links[j]) && l.id == c.links[j].id
    {
      IdentityKept(c.links[j], c.networks, n, views, c);
    }
  }

  lemma IdentityKept(l: Link, networks: seq<Network>, n: nat, views: Views, c: Config)
    requires n <= |networks| && MatchesAll(networks, views) && LinkName(l.name)
    ensures Identity(ProjectedLink(l, networks, n, views)) == Identity(l)
    ensures ProjectedLink(l, networks, n, views).id == l.id
  {
    var k := OwnerOf(l, networks, n);
    if k < n {
      NameIsNotManaged(l, networks[k].name);
    }
  }

  lemma OnlyOwner(c: Config, i: nat, j: nat, views: Views)
    requires Validated(c) && MatchesAll(c.networks, views) && i < |c.networks| && c.networks[i].dynamic && j < |c.links|
    requires Identity(c.links[j]) == Managed(c.networks[i].name)
    ensures var before := ProjectedLinks(c.links, c.networks, i, views);
      before[j := Renamed(before[j], views[c.networks[i].name])] == ProjectedLinks(c.links, c.networks, i + 1, views)
  {
    var before, after := ProjectedLinks(c.links, c.networks, i, views), ProjectedLinks(c.links, c.networks, i + 1, views);
    forall k | 0 <= k < |c.links| ensures after[k] == if k == j then Renamed(before[j], views[c.networks[i].name]) else before[k] {
      var owner := OwnerOf(c.links[k], c.networks, i);
      if k == j && owner < i {
        ManagedIsInjective(c.networks[owner].name, c.networks[i].name);
      }
    }
  }

  method MoveZones(old_: seq<Zone>, m: map<string, string>) returns (zones: seq<Zone>)
    ensures zones == ProjectedZones(old_, m)
  {
    hide ProjectedZone;
    zones := [];
    for i := 0 to |old_|
      invariant |zones| == i && forall k :: 0 <= k < i ==> zones[k] == ProjectedZone(old_[k], m)
    {
      zones := zones + [ProjectedZone(old_[i], m)];
    }
  }

  method Project(c: Config, seen: seq<Seen>) returns (r: Option<Config>)
    requires Validated(c)
    ensures r == Projected(c, seen)
  {
    hide Gathered, Matches, Validated, Projection;
    if !c.enabled {
      return Some(c);
    }
    var views := Gather(c.networks, seen);
    if views.None? {
      return None;
    }
    for i := 0 to |c.networks|
      invariant forall k :: 0 <= k < i ==> Matches(c.networks[k], views.value)
    {
      if !Matches(c.networks[i], views.value) {
        return None;
      }
    }
    r := Build(c, views.value);
  }

  /** Binds, moves the zones, and validates the outcome. */
  method Build(c: Config, views: Views) returns (r: Option<Config>)
    requires Validated(c) && MatchesAll(c.networks, views)
    ensures r == if Validated(Projection(c, views)) then Some(Projection(c, views)) else None
  {
    hide Matches, MatchesAll, Validated, ProjectedLinks, ReboundNetworks, Replacements, ProjectedZones;
    var links, networks, m := Bind(c, views);
    AllBound(c, views, links, networks, m);
    var zones := MoveZones(c.zones, m);
    var result := Config(c.enabled, links, zones, networks);
    r := if Validated(result) then Some(result) else None;
  }

  // ---- What a projection keeps ----

  /** Every interface keeps its identity and its id, whatever it is now called. */
  lemma IdentitiesStay(c: Config, seen: seq<Seen>)
    requires Validated(c) && Projected(c, seen).Some?
    ensures var v := Projected(c, seen).value;
      |v.links| == |c.links| && forall i :: 0 <= i < |c.links| ==>
        Identity(v.links[i]) == Identity(c.links[i]) && v.links[i].id == c.links[i].id && v.links[i].zone == c.links[i].zone
  {
    if c.enabled {
      var views := Gathered(c.networks, seen).value;
      forall i | 0 <= i < |c.links|
        ensures var l := ProjectedLink(c.links[i], c.networks, |c.networks|, views);
          Identity(l) == Identity(c.links[i]) && l.id == c.links[i].id
      {
        IdentityKept(c.links[i], c.networks, |c.networks|, views, c);
      }
    }
  }

  /** Every network keeps its subnets, each with its gateway. */
  lemma PlansStay(c: Config, seen: seq<Seen>, i: nat)
    requires Validated(c) && Projected(c, seen).Some? && i < |c.networks|
    ensures var v := Projected(c, seen).value;
      |v.networks| == |c.networks| && v.networks[i].name == c.networks[i].name
      && Plan(v.networks[i]) == Plan(c.networks[i]) && Plan(c.networks[i]).Some?
  {
    assert NetworkOk(c, c.networks[i]);
    if c.enabled {
      var views := Gathered(c.networks, seen).value;
      assert Matches(c.networks[i], views);
      ReboundPlan(c.networks[i], views);
    }
  }

  lemma ReboundPlan(n: Network, views: Views)
    requires Matches(n, views)
    ensures Plan(Rebound(n, views)) == Plan(n)
  {
    if n.dynamic {
      var pairs := views[n.name].pairs;
      var declared := Zip(n.subnets, n.gateways);
      SortMembers(declared, (p: Pair) => p.subnet);
      SortKeepsDistinct(declared);
      ZipUnzip(pairs);
      InOrderTwice(declared);
    }
  }

  lemma SortKeepsDistinct(pairs: seq<Pair>)
    requires DistinctSubnets(pairs)
    ensures DistinctSubnets(InOrder(pairs))
  {
    var sorted := InOrder(pairs);
    SortMembers(pairs, (p: Pair) => p.subnet);
    forall i, j | 0 <= i < j < |sorted| ensures sorted[i].subnet != sorted[j].subnet {
      if sorted[i].subnet == sorted[j].subnet {
        assert sorted[i] in pairs && sorted[j] in pairs;
        assert sorted[i] == sorted[j];
        CountTwice(sorted, i, j);
        CountOnce(pairs, sorted[i]);
      }
    }
  }

  lemma CountTwice(xs: seq<Pair>, i: nat, j: nat)
    requires i < j < |xs| && xs[i] == xs[j]
    ensures multiset(xs)[xs[i]] >= 2
  {
    assert xs == xs[..j] + [xs[j]] + xs[j + 1..];
    assert xs[i] in xs[..j];
  }

  lemma {:induction false} CountOnce(xs: seq<Pair>, x: Pair)
    requires DistinctSubnets(xs)
    ensures multiset(xs)[x] <= 1
  {
    if xs != [] {
      assert xs == [xs[0]] + xs[1..];
      CountOnce(xs[1..], x);
      if xs[0] == x {
        assert x !in xs[1..];
      }
    }
  }

  // ---- Zones follow their networks ----

  lemma {:induction false} ReplacementOf(networks: seq<Network>, n: nat, views: Views, k: nat)
    requires k < n <= |networks| && MatchesAll(networks, views)
    requires forall i, j :: 0 <= i < j < |networks| ==> networks[i].bridge != networks[j].bridge
    ensures var m := Replacements(networks, n, views);
      if networks[k].dynamic then networks[k].bridge in m && m[networks[k].bridge] == views[networks[k].name].bridge
      else networks[k].bridge !in m
    decreases n
  {
    hide Plan;
    if k < n - 1 {
      ReplacementOf(networks, n - 1, views, k);
    } else {
      OnlyOldBridges(networks, n - 1, views, networks[k].bridge);
    }
  }

  predicate Replaces(n: Network, views: Views, old_: string, new_: string) {
    n.dynamic && n.bridge == old_ && n.name in views && views[n.name].bridge == new_
  }

  lemma {:induction false} OnlyOldBridges(networks: seq<Network>, n: nat, views: Views, name: string)
    requires n <= |networks| && MatchesAll(networks, views)
    ensures var m := Replacements(networks, n, views);
      name in m ==> exists k :: 0 <= k < n && Replaces(networks[k], views, name, m[name])
  {
    hide Plan;
    if n > 0 {
      OnlyOldBridges(networks, n - 1, views, name);
    }
  }

  /** A link that no dynamic network owns keeps its name; one that is owned carries its network's old bridge name. */
  lemma OwnedIsBridge(c: Config, j: nat, k: nat)
    requires Validated(c) && j < |c.links| && k < |c.networks|
    requires c.networks[k].dynamic && Managed(c.networks[k].name) == Identity(c.links[j])
    ensures c.links[j].name == c.networks[k].bridge
  {
    assert NetworkOk(c, c.networks[k]);
  }

  /** Whatever a zone listed for a network's bridge before, it lists for its bridge now, and nothing else. */
  lemma ZonesFollow(c: Config, seen: seq<Seen>, i: nat, z: nat)
    requires Validated(c) && Projected(c, seen).Some? && i < |c.networks| && z < |c.zones|
    ensures var v := Projected(c, seen).value;
      |v.networks| == |c.networks| && |v.zones| == |c.zones| && v.zones[z].name == c.zones[z].name
      && (c.networks[i].bridge in c.zones[z].links <==> v.networks[i].bridge in v.zones[z].links)
  {
    if c.enabled {
      hide Gathered, Matches, Validated;
      ZoneFollows(c, Gathered(c.networks, seen).value, i, z);
    }
  }

  lemma ZoneFollows(c: Config, views: Views, i: nat, z: nat)
    requires Validated(c) && MatchesAll(c.networks, views) && Validated(Projection(c, views))
    requires i < |c.networks| && z < |c.zones|
    ensures var v := Projection(c, views);
      c.networks[i].bridge in c.zones[z].links <==> v.networks[i].bridge in v.zones[z].links
  {
    var m := Replacements(c.networks, |c.networks|, views);
    var names, own := c.zones[z].links, Rebound(c.networks[i], views).bridge;
    OwnReplacement(c, views, i);
    forall j | 0 <= j < |names| && Replaced(names, m)[j] == own ensures names[j] == c.networks[i].bridge {
      ComesFromBridge(c, views, i, z, j);
    }
    hide Validated, Matches, MatchesAll, Replacements;
    SortMembers(Replaced(names, m), (s: string) => s);
    MovesWith(names, m, c.networks[i].bridge, own);
  }

  /** If only the old name turns into the new one, the new list has the new name exactly when the old had the old. */
  lemma MovesWith(names: seq<string>, m: map<string, string>, old_: string, new_: string)
    requires new_ == if old_ in m then m[old_] else old_
    requires forall j :: 0 <= j < |names| && Replaced(names, m)[j] == new_ ==> names[j] == old_
    ensures old_ in names <==> new_ in Replaced(names, m)
  {
    if old_ in names {
      var j :| 0 <= j < |names| && names[j] == old_;
      assert Replaced(names, m)[j] == new_;
    }
  }

  lemma OwnReplacement(c: Config, views: Views, i: nat)
    requires Validated(c) && MatchesAll(c.networks, views) && i < |c.networks|
    ensures var m, old_, own := Replacements(c.networks, |c.networks|, views), c.networks[i].bridge, Rebound(c.networks[i], views).bridge;
      own == if old_ in m then m[old_] else old_
  {
    ReplacementOf(c.networks, |c.networks|, views, i);
    assert Matches(c.networks[i], views);
  }

  /** Only a network's own old bridge name turns into its new one. */
  lemma ComesFromBridge(c: Config, views: Views, i: nat, z: nat, j: nat)
    requires Validated(c) && MatchesAll(c.networks, views) && Validated(Projection(c, views))
    requires i < |c.networks| && z < |c.zones| && j < |c.zones[z].links|
    requires Replaced(c.zones[z].links, Replacements(c.networks, |c.networks|, views))[j] == Rebound(c.networks[i], views).bridge
    ensures c.zones[z].links[j] == c.networks[i].bridge
  {
    var m, n := Replacements(c.networks, |c.networks|, views), c.zones[z].links[j];
    if n in m {
      ReplacedIsOwn(c, views, i, n);
    } else {
      DeclaredLink(c, z, j);
      hide Validated, Matches, MatchesAll, Replacements, Projection;
      if c.networks[i].dynamic {
        var l :| 0 <= l < |c.links| && c.links[l].name == n;
        ForeignKeepsName(c, views, i, l);
      }
    }
  }

  lemma DeclaredLink(c: Config, z: nat, j: nat)
    requires Validated(c) && z < |c.zones| && j < |c.zones[z].links|
    ensures exists l :: 0 <= l < |c.links| && c.links[l].name == c.zones[z].links[j]
  {
    assert Declares(c.links, c.zones[z].links[j]);
  }

  lemma ReplacedIsOwn(c: Config, views: Views, i: nat, n: string)
    requires MatchesAll(c.networks, views) && Validated(Projection(c, views)) && i < |c.networks|
    requires var m := Replacements(c.networks, |c.networks|, views); n in m && m[n] == Rebound(c.networks[i], views).bridge
    ensures n == c.networks[i].bridge
  {
    var m := Replacements(c.networks, |c.networks|, views);
    OnlyOldBridges(c.networks, |c.networks|, views, n);
    hide Validated, Matches, Replacements, Projection;
    var k :| 0 <= k < |c.networks| && Replaces(c.networks[k], views, n, m[n]);
    NewBridgesDiffer(c, views, i, k);
  }

  lemma NewBridgesDiffer(c: Config, views: Views, i: nat, k: nat)
    requires MatchesAll(c.networks, views) && Validated(Projection(c, views))
    requires i < |c.networks| && k < |c.networks| && Rebound(c.networks[i], views).bridge == Rebound(c.networks[k], views).bridge
    ensures i == k
  {
    var v := Projection(c, views);
    assert v.networks[i].bridge == v.networks[k].bridge;
  }

  /** A link whose name is no dynamic network's bridge belongs to none. */
  lemma ForeignHasNoOwner(c: Config, views: Views, l: nat)
    requires Validated(c) && MatchesAll(c.networks, views) && l < |c.links|
    requires c.links[l].name !in Replacements(c.networks, |c.networks|, views)
    ensures OwnerOf(c.links[l], c.networks, |c.networks|) == |c.networks|
  {
    var owner := OwnerOf(c.links[l], c.networks, |c.networks|);
    if owner < |c.networks| {
      OwnedIsBridge(c, l, owner);
      ReplacementOf(c.networks, |c.networks|, views, owner);
    }
  }

  /** Such a link is not what any dynamic network is bound to afterwards. */
  lemma ForeignKeepsName(c: Config, views: Views, i: nat, l: nat)
    requires Validated(c) && MatchesAll(c.networks, views) && Validated(Projection(c, views))
    requires i < |c.networks| && c.networks[i].dynamic && l < |c.links|
    requires c.links[l].name !in Replacements(c.networks, |c.networks|, views)
    ensures c.links[l].name != Rebound(c.networks[i], views).bridge
  {
    var v := Projection(c, views);
    ForeignHasNoOwner(c, views, l);
    assert v.links[l] == c.links[l];
    assert NetworkOk(v, v.networks[i]);
    hide Replacements, MatchesAll;
    var b :| 0 <= b < |v.links| && Carries(v.links[b], v.networks[i]);
    assert Identity(v.links[l]) != Managed(c.networks[i].name);
    assert b != l;
  }

  // ---- Projecting again ----

  lemma {:induction false} GatheredByName(a: seq<Network>, b: seq<Network>, seen: seq<Seen>)
    requires |a| == |b| && forall i :: 0 <= i < |a| ==> a[i].name == b[i].name
    ensures Gathered(a, seen) == Gathered(b, seen)
  {
    if seen != [] {
      GatheredByName(a, b, seen[..|seen| - 1]);
      forall name ensures Authorized(a, name) <==> Authorized(b, name) {
        if i :| 0 <= i < |a| && a[i].name == name {
          assert b[i].name == name;
        }
        if i :| 0 <= i < |b| && b[i].name == name {
          assert a[i].name == name;
        }
      }
    }
  }

  lemma {:induction false} OwnerByIdentity(l: Link, k: Link, a: seq<Network>, b: seq<Network>, n: nat)
    requires Identity(l) == Identity(k) && n <= |a| == |b|
    requires forall i :: 0 <= i < |a| ==> a[i].name == b[i].name && a[i].dynamic == b[i].dynamic
    ensures OwnerOf(l, a, n) == OwnerOf(k, b, n)
  {
    if n > 0 {
      OwnerByIdentity(l, k, a, b, n - 1);
    }
  }

  /** The map renames nothing. */
  predicate RenamesNothing(m: map<string, string>) {
    forall n :: n in m ==> m[n] == n
  }

  lemma ReplacedIsFixed(names: seq<string>, m: map<string, string>)
    requires RenamesNothing(m)
    ensures Replaced(names, m) == names
  {
  }

  lemma SecondReplacements(networks: seq<Network>, views: Views, n: nat)
    requires MatchesAll(networks, views) && n <= |networks|
    requires MatchesAll(ReboundNetworks(networks, views), views)
    ensures RenamesNothing(Replacements(ReboundNetworks(networks, views), n, views))
  {
    var again := ReboundNetworks(networks, views);
    var m := Replacements(again, n, views);
    forall k | 0 <= k < |again| && again[k].dynamic ensures again[k].name in views && views[again[k].name].bridge == again[k].bridge {
      assert Matches(networks[k], views);
    }
    hide MatchesAll, Matches, ReboundNetworks, Rebound, Replacements;
    forall name | name in m ensures m[name] == name {
      OnlyOldBridges(again, n, views, name);
    }
  }

  lemma SecondMatch(networks: seq<Network>, views: Views)
    requires MatchesAll(networks, views)
    ensures MatchesAll(ReboundNetworks(networks, views), views)
    ensures ReboundNetworks(ReboundNetworks(networks, views), views) == ReboundNetworks(networks, views)
  {
    var again := ReboundNetworks(networks, views);
    forall i | 0 <= i < |again| ensures Matches(again[i], views) {
      assert Matches(networks[i], views);
      ReboundPlan(networks[i], views);
    }
  }

  lemma SecondLinks(c: Config, views: Views)
    requires Validated(c) && MatchesAll(c.networks, views) && MatchesAll(ReboundNetworks(c.networks, views), views)
    ensures var n := |c.networks|; var links := ProjectedLinks(c.links, c.networks, n, views);
      ProjectedLinks(links, ReboundNetworks(c.networks, views), n, views) == links
  {
    var n, again := |c.networks|, ReboundNetworks(c.networks, views);
    var links := ProjectedLinks(c.links, c.networks, n, views);
    forall i | 0 <= i < |links| ensures ProjectedLink(links[i], again, n, views) == links[i] {
      IdentityKept(c.links[i], c.networks, n, views, c);
      OwnerByIdentity(c.links[i], links[i], c.networks, again, n);
    }
  }

  lemma SecondZones(zones: seq<Zone>, m: map<string, string>, again: map<string, string>)
    requires RenamesNothing(again)
    ensures ProjectedZones(ProjectedZones(zones, m), again) == ProjectedZones(zones, m)
  {
    var once := ProjectedZones(zones, m);
    forall i | 0 <= i < |once| ensures ProjectedZones(once, again)[i] == once[i] {
      ReplacedIsFixed(once[i].links, again);
      SortSorts(Replaced(zones[i].links, m), (s: string) => s);
      SortedIsFixed(once[i].links, (s: string) => s);
    }
  }

  lemma ProjectionTwice(c: Config, views: Views)
    requires Validated(c) && MatchesAll(c.networks, views)
    ensures MatchesAll(Projection(c, views).networks, views)
    ensures Projection(Projection(c, views), views) == Projection(c, views)
  {
    SecondMatch(c.networks, views);
    SecondLinks(c, views);
    SecondReplacements(c.networks, views, |c.networks|);
    hide Validated, MatchesAll, Matches, ProjectedLinks, ReboundNetworks, Replacements, ProjectedZones, Plan, RenamesNothing;
    var again := ReboundNetworks(c.networks, views);
    assert |again| == |c.networks|;
    SecondZones(c.zones, Replacements(c.networks, |c.networks|, views), Replacements(again, |c.networks|, views));
  }

  /** Projecting the result again with the same observation changes nothing. */
  lemma ProjectTwice(c: Config, seen: seq<Seen>)
    requires Validated(c) && Projected(c, seen).Some?
    ensures Projected(Projected(c, seen).value, seen) == Projected(c, seen)
  {
    if c.enabled {
      var views := Gathered(c.networks, seen).value;
      NamesStay(c, views);
      ProjectionTwice(c, views);
      hide Gathered, Validated, Projection, Matches;
      var v := Projected(c, seen).value;
      GatheredByName(c.networks, v.networks, seen);
    }
  }

  lemma NamesStay(c: Config, views: Views)
    requires MatchesAll(c.networks, views)
    ensures var v := Projection(c, views);
      v.enabled == c.enabled && |v.networks| == |c.networks|
      && forall i :: 0 <= i < |c.networks| ==> v.networks[i].name == c.networks[i].name
  {
  }

  /** Two networks may swap bridges: both follow their identity, and the zone that listed one lists its new name. */
  lemma SwapFollows(c: Config, seen: seq<Seen>, i: nat, j: nat, z: nat)
    requires Validated(c) && Projected(c, seen).Some? && c.enabled && i < |c.networks| && j < |c.networks| && z < |c.zones|
    requires var v := Projected(c, seen).value;
      |v.networks| == |c.networks| && v.networks[i].bridge == c.networks[j].bridge && v.networks[j].bridge == c.networks[i].bridge
    ensures var v := Projected(c, seen).value;
      |v.zones| == |c.zones|
      && (c.networks[j].bridge in v.zones[z].links <==> c.networks[i].bridge in c.zones[z].links)
      && (c.networks[i].bridge in v.zones[z].links <==> c.networks[j].bridge in c.zones[z].links)
  {
    ZonesFollow(c, seen, i, z);
    ZonesFollow(c, seen, j, z);
  }
}
