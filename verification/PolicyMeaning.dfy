/** What emitted selectors and policy rules say about packets, without mentioning rules. */
module PolicyMeaning {
  import opened Texts
  import opened PolicyModel
  import opened PacketRules
  import opened PolicyCompiler

  function EndOf(p: Packet, destination: bool): Address {
    if destination then p.destination else p.source
  }

  function LinkOf(p: Packet, destination: bool): string {
    if destination then p.oif else p.iif
  }

  /** The zone lists the interface, or the interface names the zone. */
  predicate LinkInZone(e: Effective, zone: string, link: string)
    requires zone in e.zones
  {
    || link in e.zones[zone].interfaces
    || exists i :: 0 <= i < |e.config.interfaces| && e.config.interfaces[i].zone == zone && e.config.interfaces[i].name == link
  }

  predicate HasLinks(e: Effective, zone: string)
    requires zone in e.zones
  {
    e.zones[zone].interfaces != [] || exists i :: 0 <= i < |e.config.interfaces| && e.config.interfaces[i].zone == zone
  }

  /** The private, link-local and loopback networks: section 3 of RFC 1918, RFC 3927, RFC 4193, section 2.5 of RFC 4291. */
  const LOCAL_NETWORKS: seq<Prefix> := [
    Prefix(V4(0x0a00_0000), 8), Prefix(V4(0xac10_0000), 12), Prefix(V4(0xc0a8_0000), 16),
    Prefix(V4(0xa9fe_0000), 16), Prefix(V4(0x7f00_0000), 8),
    Prefix(V6(0xfc00 * Pow2(112)), 7), Prefix(V6(0xfe80 * Pow2(112)), 10), Prefix(V6(1), 128)]

  /** IPv4 written inside IPv6. */
  const MAPPED := Prefix(V6(0xffff_0000_0000), 96)

  predicate InSome(networks: seq<Prefix>, a: Address) {
    exists i :: 0 <= i < |networks| && Contains(networks[i], a)
  }

  /** An address of a local network, also where it is written inside IPv6. */
  predicate IsLocal(a: Address) {
    InSome(LOCAL_NETWORKS, if Contains(MAPPED, a) then V4(a.n % 0x1_0000_0000) else a)
  }

  /** Some network of the zone holds the address; one not written with a local address counts only inside the tunnel. */
  predicate InNetworks(networks: seq<Prefix>, a: Address, tunnelled: bool) {
    exists k :: 0 <= k < |networks| && Contains(networks[k], a) && (IsLocal(networks[k].address) || tunnelled)
  }

  /** A zone's networks and interfaces both have to agree, where it has both. */
  predicate Covered(e: Effective, name: string, destination: bool, p: Packet, tunnelled: bool) {
    if name == "host" then false
    else if name == "any" then true
    else if name !in e.zones then false
    else
      && (e.zones[name].networks == [] || InNetworks(e.zones[name].networks, EndOf(p, destination), tunnelled))
      && (HasLinks(e, name) ==> LinkInZone(e, name, LinkOf(p, destination)))
      && (e.zones[name].networks == [] ==> HasLinks(e, name))
  }

  predicate ServiceCovers(s: Service, p: Packet) {
    match s.protocol
    case AnyProtocol => true
    case Icmp => p.transport == if FamilyOf(p.source) == IPv6 then Icmp6Packet else IcmpPacket
    case Tcp => p.transport == TcpPacket && p.dport in s.ports
    case Udp => p.transport == UdpPacket && p.dport in s.ports
    case OtherProtocol(_) => p.transport == OtherTransport(0) && p.dport in s.ports
  }

  /** What a policy is about, hook by hook; no packet comes from or goes to the host by way of a zone. */
  predicate PolicyCovers(e: Effective, q: Policy, hook: Hook, p: Packet)
    requires q.service in e.services
  {
    && ServiceCovers(e.services[q.service], p)
    && match hook
       case InputHook => q.target == "host" && Covered(e, q.source, false, p, true)
       case OutputHook =>
         && (q.source == "host" || q.source == "any")
         && (q.target == "any" ==> p.oif == e.config.vpn) && Covered(e, q.target, true, p, p.oif == e.config.vpn)
       case ForwardHook =>
         && (q.target == "any" ==> p.oif == e.config.vpn)
         && Covered(e, q.source, false, p, true) && Covered(e, q.target, true, p, true)
  }

  /** Some policy of this action covers the packet. */
  predicate Decided(e: Effective, hook: Hook, action: PolicyAction, p: Packet) {
    exists k :: 0 <= k < |e.config.policies| && DecidedBy(e.config.policies[k], e, hook, action, p)
  }

  predicate DecidedBy(q: Policy, e: Effective, hook: Hook, action: PolicyAction, p: Packet) {
    q.action == action && q.service in e.services && PolicyCovers(e, q, hook, p)
  }

  // ---- Selectors ----

  lemma HoldAppend(a: seq<Match>, b: seq<Match>, p: Packet, mark: bv32)
    ensures AllHold(a + b, p, mark) <==> AllHold(a, p, mark) && AllHold(b, p, mark)
  {
    hide Holds;
    var ab := a + b;
    assert forall i :: 0 <= i < |a| ==> ab[i] == a[i];
    assert forall i :: 0 <= i < |b| ==> ab[|a| + i] == b[i];
  }

  lemma HoldOne(m: Match, p: Packet, mark: bv32)
    ensures AllHold([m], p, mark) <==> Holds(m, p, mark)
  {
    assert [m][0] == m;
  }

  /** The selector takes the packet, and does not ask for a tunnel that is not there. */
  predicate Takes(s: Selector, p: Packet, mark: bv32, tunnelled: bool) {
    AllHold(s.matches, p, mark) && (s.requiresVpn ==> tunnelled)
  }

  predicate SomeTakes(ss: seq<Selector>, p: Packet, mark: bv32, tunnelled: bool) {
    exists k :: 0 <= k < |ss| && Takes(ss[k], p, mark, tunnelled)
  }

  lemma TakesAppend(a: seq<Selector>, b: seq<Selector>, p: Packet, mark: bv32, tunnelled: bool)
    ensures SomeTakes(a + b, p, mark, tunnelled) <==> SomeTakes(a, p, mark, tunnelled) || SomeTakes(b, p, mark, tunnelled)
  {
    hide Takes;
    var ab := a + b;
    assert forall i :: 0 <= i < |a| ==> ab[i] == a[i];
    assert forall i :: 0 <= i < |b| ==> ab[|a| + i] == b[i];
  }

  lemma {:induction false} NamedInExact(links: seq<Interface>, zone: string, name: string)
    ensures name in NamedIn(links, zone) <==> exists i :: 0 <= i < |links| && links[i].zone == zone && links[i].name == name
  {
    if links != [] {
      var before := links[..|links| - 1];
      NamedInExact(before, zone, name);
      assert forall i :: 0 <= i < |before| ==> before[i] == links[i];
    }
  }

  lemma ZoneLinksExact(e: Effective, zone: string, link: string)
    requires zone in e.zones
    ensures link in ZoneLinks(e, zone) <==> LinkInZone(e, zone, link)
  {
    var names := e.zones[zone].interfaces + NamedIn(e.config.interfaces, zone);
    NamedInExact(e.config.interfaces, zone, link);
    DedupMembers(SortBy(names, (x: string) => x), link);
    SortMembers(names, (x: string) => x);
  }

  lemma ZoneLinksEmpty(e: Effective, zone: string)
    requires zone in e.zones
    ensures ZoneLinks(e, zone) == [] <==> !HasLinks(e, zone)
  {
    var links := ZoneLinks(e, zone);
    if links != [] {
      ZoneLinksExact(e, zone, links[0]);
    }
    if e.zones[zone].interfaces != [] {
      ZoneLinksExact(e, zone, e.zones[zone].interfaces[0]);
    } else if HasLinks(e, zone) {
      var i :| 0 <= i < |e.config.interfaces| && e.config.interfaces[i].zone == zone;
      ZoneLinksExact(e, zone, e.config.interfaces[i].name);
    }
  }

  // ---- Local networks ----

  lemma {:induction false} PowerSum(a: nat, b: nat)
    ensures Pow2(a + b) == Pow2(a) * Pow2(b)
  {
    if b > 0 {
      PowerSum(a, b - 1);
    }
  }

  lemma Product(a: nat, b: nat, x: nat, y: nat)
    requires Pow2(a) == x && Pow2(b) == y
    ensures Pow2(a + b) == x * y
  {
    hide Pow2;
    PowerSum(a, b);
  }

  lemma SmallPowers()
    ensures Pow2(0) == 1 && Pow2(4) == 0x10 && Pow2(16) == 0x1_0000
    ensures Pow2(20) == 0x10_0000 && Pow2(24) == 0x100_0000 && Pow2(32) == 0x1_0000_0000
  {
    assert Pow2(0) == 1 && Pow2(1) == 2;
    hide Pow2;
    Product(1, 1, 2, 2);
    Product(2, 2, 4, 4);
    Product(4, 4, 0x10, 0x10);
    Product(8, 8, 0x100, 0x100);
    Product(16, 4, 0x1_0000, 0x10);
    Product(16, 8, 0x1_0000, 0x100);
    Product(16, 16, 0x1_0000, 0x1_0000);
  }

  lemma ContainsV4(base: nat, bits: nat, size: nat, a: Address)
    requires bits <= 32 && Pow2(32 - bits) == size
    ensures Contains(Prefix(V4(base), bits), a) <==> a.V4? && a.n / size == base / size
  {
  }

  lemma ContainsV6(base: nat, bits: nat, size: nat, a: Address)
    requires bits <= 128 && Pow2(128 - bits) == size
    ensures Contains(Prefix(V6(base), bits), a) <==> a.V6? && a.n / size == base / size
  {
  }

  /** The quotient of an IPv6 address given by its first sixteen bits. */
  lemma HighBits(top: nat, low: nat, bits: nat)
    requires (low == 9 && bits == top * 0x200) || (low == 6 && bits == top * 0x40)
    ensures bits * Pow2(112) / Pow2(112 + low) == top
  {
    assert Pow2(6) == 0x40 && Pow2(9) == 0x200 by {
      assert Pow2(0) == 1 && Pow2(1) == 2;
      hide Pow2;
      Product(1, 1, 2, 2);
      Product(2, 1, 4, 2);
      Product(3, 3, 8, 8);
      Product(6, 3, 0x40, 8);
    }
    hide Pow2;
    PowerSum(112, low);
    var h := Pow2(112);
    assert bits * h == top * Pow2(112 + low) by {
      assert Pow2(112 + low) == h * Pow2(low);
      Regrouped(top, h, Pow2(low));
    }
    QuotientOfMultiple(top, Pow2(112 + low));
  }

  lemma Regrouped(a: int, b: int, c: int)
    ensures a * (b * c) == (a * c) * b
  {
  }

  lemma LocalMeans(a: Address)
    ensures InSome(LOCAL_NETWORKS, a) <==>
      match a
      case V4(n) => n / 0x100_0000 == 10 || n / 0x10_0000 == 0xac1 || n / 0x1_0000 == 0xc0a8 || n / 0x1_0000 == 0xa9fe || n / 0x100_0000 == 127
      case V6(n) => n / Pow2(121) == 0x7e || n / Pow2(118) == 0x3fa || n == 1
  {
    SmallPowers();
    hide Contains, Pow2;
    ContainsV4(0x0a00_0000, 8, 0x100_0000, a);
    ContainsV4(0xac10_0000, 12, 0x10_0000, a);
    ContainsV4(0xc0a8_0000, 16, 0x1_0000, a);
    ContainsV4(0xa9fe_0000, 16, 0x1_0000, a);
    ContainsV4(0x7f00_0000, 8, 0x100_0000, a);
    ContainsV6(0xfc00 * Pow2(112), 7, Pow2(121), a);
    ContainsV6(0xfe80 * Pow2(112), 10, Pow2(118), a);
    HighBits(0x7e, 9, 0xfc00);
    HighBits(0x3fa, 6, 0xfe80);
    ContainsV6(1, 128, 1, a);
    assert Contains(LOCAL_NETWORKS[0], a) ==> InSome(LOCAL_NETWORKS, a);
    assert Contains(LOCAL_NETWORKS[1], a) ==> InSome(LOCAL_NETWORKS, a);
    assert Contains(LOCAL_NETWORKS[2], a) ==> InSome(LOCAL_NETWORKS, a);
    assert Contains(LOCAL_NETWORKS[3], a) ==> InSome(LOCAL_NETWORKS, a);
    assert Contains(LOCAL_NETWORKS[4], a) ==> InSome(LOCAL_NETWORKS, a);
    assert Contains(LOCAL_NETWORKS[5], a) ==> InSome(LOCAL_NETWORKS, a);
    assert Contains(LOCAL_NETWORKS[6], a) ==> InSome(LOCAL_NETWORKS, a);
    assert Contains(LOCAL_NETWORKS[7], a) ==> InSome(LOCAL_NETWORKS, a);
  }

  /** A network needs the tunnel exactly if it is not written with an address of a local network. */
  lemma RequiresVpnMeans(p: Prefix)
    ensures RequiresVpn(p) <==> !IsLocal(p.address)
  {
    var a := p.address;
    SmallPowers();
    ContainsV6(0xffff_0000_0000, 96, 0x1_0000_0000, a);
    hide Contains, Pow2, InSome;
    assert Unmapped(a) == if Contains(MAPPED, a) then V4(a.n % 0x1_0000_0000) else a;
    LocalMeans(Unmapped(a));
  }

  lemma NetworksTake(networks: seq<Prefix>, destination: bool, p: Packet, mark: bv32, tunnelled: bool)
    ensures SomeTakes(NetworkSelectors(networks, destination), p, mark, tunnelled)
      <==> InNetworks(networks, EndOf(p, destination), tunnelled)
  {
    var ss := NetworkSelectors(networks, destination);
    forall k | 0 <= k < |ss|
      ensures Takes(ss[k], p, mark, tunnelled) <==>
        Contains(networks[k], EndOf(p, destination)) && (IsLocal(networks[k].address) || tunnelled)
    {
      HoldOne(AddressMatch(networks[k], destination), p, mark);
      RequiresVpnMeans(networks[k]);
      hide IsLocal, RequiresVpn;
    }
  }

  lemma CrossOneTakes(s: Selector, names: seq<string>, destination: bool, p: Packet, mark: bv32, tunnelled: bool)
    ensures SomeTakes(CrossOne(s, names, destination), p, mark, tunnelled)
      <==> LinkOf(p, destination) in names && Takes(s, p, mark, tunnelled)
  {
    var ss := CrossOne(s, names, destination);
    forall k | 0 <= k < |ss|
      ensures Takes(ss[k], p, mark, tunnelled) <==> names[k] == LinkOf(p, destination) && Takes(s, p, mark, tunnelled)
    {
      HoldOne(LinkMatch(names[k], destination), p, mark);
      HoldAppend([LinkMatch(names[k], destination)], s.matches, p, mark);
    }
  }

  lemma {:induction false} CrossTakes(ss: seq<Selector>, names: seq<string>, destination: bool, p: Packet, mark: bv32, tunnelled: bool)
    ensures SomeTakes(Cross(ss, names, destination), p, mark, tunnelled)
      <==> LinkOf(p, destination) in names && SomeTakes(ss, p, mark, tunnelled)
  {
    hide Takes, CrossOne;
    if ss != [] {
      var before, last := ss[..|ss| - 1], ss[|ss| - 1];
      CrossTakes(before, names, destination, p, mark, tunnelled);
      CrossOneTakes(last, names, destination, p, mark, tunnelled);
      TakesAppend(Cross(before, names, destination), CrossOne(last, names, destination), p, mark, tunnelled);
      TakesAppend(before, [last], p, mark, tunnelled);
      assert ss == before + [last];
      TakesOne(last, p, mark, tunnelled);
    }
  }

  lemma TakesOne(s: Selector, p: Packet, mark: bv32, tunnelled: bool)
    ensures SomeTakes([s], p, mark, tunnelled) <==> Takes(s, p, mark, tunnelled)
  {
    assert [s][0] == s;
  }

  lemma BothFamiliesTake(prefix: seq<Match>, p: Packet, mark: bv32, tunnelled: bool)
    ensures SomeTakes(BothFamilies(prefix), p, mark, tunnelled) <==> AllHold(prefix, p, mark)
  {
    var ss := BothFamilies(prefix);
    HoldAppend(prefix, [Nf(IPv4)], p, mark);
    HoldAppend(prefix, [Nf(IPv6)], p, mark);
    HoldOne(Nf(IPv4), p, mark);
    HoldOne(Nf(IPv6), p, mark);
    assert Takes(ss[0], p, mark, tunnelled) || Takes(ss[1], p, mark, tunnelled) <==> AllHold(prefix, p, mark);
  }

  lemma {:induction false} LinksTake(names: seq<string>, destination: bool, p: Packet, mark: bv32, tunnelled: bool)
    ensures SomeTakes(LinkSelectors(names, destination), p, mark, tunnelled) <==> LinkOf(p, destination) in names
  {
    hide Takes, BothFamilies;
    if names != [] {
      var before, last := names[..|names| - 1], names[|names| - 1];
      LinksTake(before, destination, p, mark, tunnelled);
      BothFamiliesTake([LinkMatch(last, destination)], p, mark, tunnelled);
      HoldOne(LinkMatch(last, destination), p, mark);
      TakesAppend(LinkSelectors(before, destination), BothFamilies([LinkMatch(last, destination)]), p, mark, tunnelled);
      assert names == before + [last];
    }
  }

  /** The selectors built for a zone take exactly the packets the zone covers. */
  lemma SelectorsExact(e: Effective, name: string, destination: bool, p: Packet, mark: bv32, tunnelled: bool)
    ensures SomeTakes(ZoneSelectors(name, destination, e), p, mark, tunnelled) <==> Covered(e, name, destination, p, tunnelled)
  {
    hide Takes, BothFamilies, CrossOne, LinkInZone, HasLinks, InNetworks, ZoneLinks;
    if name != "host" && name == "any" {
      BothFamiliesTake([], p, mark, tunnelled);
    } else if name != "host" && name in e.zones {
      var networks, links := e.zones[name].networks, ZoneLinks(e, name);
      NetworksTake(networks, destination, p, mark, tunnelled);
      CrossTakes(NetworkSelectors(networks, destination), links, destination, p, mark, tunnelled);
      LinksTake(links, destination, p, mark, tunnelled);
      ZoneLinksExact(e, name, LinkOf(p, destination));
      ZoneLinksEmpty(e, name);
    }
  }

  /** A selector that takes a packet is of the packet's family. */
  predicate RightFamily(s: Selector, p: Packet, mark: bv32) {
    AllHold(s.matches, p, mark) ==> s.family == FamilyOf(p.source)
  }

  predicate RightFamilies(ss: seq<Selector>, p: Packet, mark: bv32) {
    forall k :: 0 <= k < |ss| ==> RightFamily(ss[k], p, mark)
  }

  lemma BothFamiliesRight(prefix: seq<Match>, p: Packet, mark: bv32)
    ensures RightFamilies(BothFamilies(prefix), p, mark)
  {
    HoldAppend(prefix, [Nf(IPv4)], p, mark);
    HoldAppend(prefix, [Nf(IPv6)], p, mark);
    HoldOne(Nf(IPv4), p, mark);
    HoldOne(Nf(IPv6), p, mark);
  }

  lemma {:induction false} CrossRight(ss: seq<Selector>, names: seq<string>, destination: bool, p: Packet, mark: bv32)
    requires RightFamilies(ss, p, mark)
    ensures RightFamilies(Cross(ss, names, destination), p, mark)
  {
    if ss != [] {
      var last := ss[|ss| - 1];
      CrossRight(ss[..|ss| - 1], names, destination, p, mark);
      forall k | 0 <= k < |names| ensures RightFamily(CrossOne(last, names, destination)[k], p, mark) {
        HoldAppend([LinkMatch(names[k], destination)], last.matches, p, mark);
        assert RightFamily(last, p, mark);
      }
    }
  }

  lemma {:induction false} LinksRight(names: seq<string>, destination: bool, p: Packet, mark: bv32)
    ensures RightFamilies(LinkSelectors(names, destination), p, mark)
  {
    hide RightFamily, BothFamilies;
    if names != [] {
      LinksRight(names[..|names| - 1], destination, p, mark);
      BothFamiliesRight([LinkMatch(names[|names| - 1], destination)], p, mark);
    }
  }

  lemma SelectorsRight(e: Effective, name: string, destination: bool, p: Packet, mark: bv32)
    ensures RightFamilies(ZoneSelectors(name, destination, e), p, mark)
  {
    if name != "host" && name == "any" {
      BothFamiliesRight([], p, mark);
    } else if name != "host" && name in e.zones {
      var networks := NetworkSelectors(e.zones[name].networks, destination);
      forall k | 0 <= k < |networks| ensures RightFamily(networks[k], p, mark) {
        HoldOne(AddressMatch(e.zones[name].networks[k], destination), p, mark);
      }
      CrossRight(networks, ZoneLinks(e, name), destination, p, mark);
      LinksRight(ZoneLinks(e, name), destination, p, mark);
    }
  }

  // ---- Services and policies ----

  lemma ServiceExact(s: Service, p: Packet, mark: bv32)
    ensures AllHold(ServiceMatches(s, FamilyOf(p.source)), p, mark) <==> ServiceCovers(s, p)
  {
    var ms := ServiceMatches(s, FamilyOf(p.source));
    assert p.dport in PortsOf(s.ports) <==> p.dport in s.ports;
    if |ms| == 2 {
      assert ms == [ms[0]] + [ms[1]];
      HoldAppend([ms[0]], [ms[1]], p, mark);
      HoldOne(ms[1], p, mark);
    }
    if ms != [] {
      HoldOne(ms[0], p, mark);
      assert |ms| == 1 ==> ms == [ms[0]];
    }
  }

  lemma OutputRuleExact(q: Policy, s: Service, e: Effective, dst: Selector, p: Packet, mark: bv32)
    requires RightFamily(dst, p, mark)
    ensures AllHold(OutputRule(q, s, e, dst).matches, p, mark) <==>
      Takes(dst, p, mark, p.oif == e.config.vpn) && (q.target == "any" ==> p.oif == e.config.vpn) && ServiceCovers(s, p)
  {
    hide Holds, ServiceMatches, ServiceCovers;
    var via := if q.target == "any" || dst.requiresVpn then [Oif(e.config.vpn)] else [];
    HoldAppend(dst.matches + via, ServiceMatches(s, dst.family), p, mark);
    HoldAppend(dst.matches, via, p, mark);
    ViaVpn(e.config.vpn, p, mark);
    ServiceExact(s, p, mark);
  }

  lemma ViaVpn(vpn: string, p: Packet, mark: bv32)
    ensures AllHold([Oif(vpn)], p, mark) <==> p.oif == vpn
  {
    HoldOne(Oif(vpn), p, mark);
  }

  lemma OutputPolicyExact(q: Policy, s: Service, e: Effective, p: Packet, mark: bv32)
    ensures Hit(OutputRules(q, s, e, ZoneSelectors(q.target, true, e)), EffectOf(q), p, mark) <==>
      && ServiceCovers(s, p) && (q.target == "any" ==> p.oif == e.config.vpn)
      && Covered(e, q.target, true, p, p.oif == e.config.vpn)
  {
    var dsts := ZoneSelectors(q.target, true, e);
    var rules := OutputRules(q, s, e, dsts);
    SelectorsExact(e, q.target, true, p, mark, p.oif == e.config.vpn);
    SelectorsRight(e, q.target, true, p, mark);
    hide ZoneSelectors, Covered, ServiceCovers, Takes, AllHold;
    forall k | 0 <= k < |dsts|
      ensures Fires(rules[k], EffectOf(q), p, mark) <==>
        Takes(dsts[k], p, mark, p.oif == e.config.vpn) && (q.target == "any" ==> p.oif == e.config.vpn) && ServiceCovers(s, p)
    {
      assert RightFamily(dsts[k], p, mark);
      OutputRuleExact(q, s, e, dsts[k], p, mark);
    }
  }

  lemma InputPolicyExact(q: Policy, s: Service, e: Effective, p: Packet, mark: bv32)
    ensures Hit(InputRules(q, s, ZoneSelectors(q.source, false, e)), EffectOf(q), p, mark) <==>
      ServiceCovers(s, p) && Covered(e, q.source, false, p, true)
  {
    var srcs := ZoneSelectors(q.source, false, e);
    var rules := InputRules(q, s, srcs);
    SelectorsExact(e, q.source, false, p, mark, true);
    SelectorsRight(e, q.source, false, p, mark);
    hide ZoneSelectors, Covered, ServiceCovers, AllHold, ServiceMatches;
    forall k | 0 <= k < |srcs|
      ensures Fires(rules[k], EffectOf(q), p, mark) <==> Takes(srcs[k], p, mark, true) && ServiceCovers(s, p)
    {
      assert RightFamily(srcs[k], p, mark);
      HoldAppend(srcs[k].matches, ServiceMatches(s, srcs[k].family), p, mark);
      ServiceExact(s, p, mark);
    }
  }

  /** What a forward rule asks of the packet besides its two selectors. */
  predicate ForwardExtra(q: Policy, s: Service, e: Effective, p: Packet) {
    (q.target == "any" ==> p.oif == e.config.vpn) && ServiceCovers(s, p)
  }

  lemma ForwardRuleExact(q: Policy, s: Service, e: Effective, src: Selector, dst: Selector, p: Packet, mark: bv32)
    requires RightFamily(src, p, mark)
    ensures AllHold(ForwardRule(q, s, e, src, dst).matches, p, mark) <==>
      Takes(src, p, mark, true) && Takes(dst, p, mark, true) && ForwardExtra(q, s, e, p)
  {
    hide Holds, ServiceMatches, ServiceCovers;
    var via := if q.target == "any" then [Oif(e.config.vpn)] else [];
    HoldAppend(src.matches + dst.matches + via, ServiceMatches(s, src.family), p, mark);
    HoldAppend(src.matches + dst.matches, via, p, mark);
    HoldAppend(src.matches, dst.matches, p, mark);
    ViaVpn(e.config.vpn, p, mark);
    ServiceExact(s, p, mark);
  }

  lemma HitOne(r: Rule, e: Effect, p: Packet, mark: bv32)
    ensures Hit([r], e, p, mark) <==> Fires(r, e, p, mark)
    ensures !Hit([], e, p, mark)
  {
    assert [r][0] == r;
  }

  lemma {:induction false} ForwardFromExact(q: Policy, s: Service, e: Effective, src: Selector, dsts: seq<Selector>, p: Packet, mark: bv32)
    requires RightFamily(src, p, mark) && RightFamilies(dsts, p, mark)
    ensures Hit(ForwardRulesFrom(q, s, e, src, dsts), EffectOf(q), p, mark) <==>
      Takes(src, p, mark, true) && SomeTakes(dsts, p, mark, true) && ForwardExtra(q, s, e, p)
  {
    if dsts != [] {
      var before, last := dsts[..|dsts| - 1], dsts[|dsts| - 1];
      assert RightFamily(last, p, mark);
      ForwardFromExact(q, s, e, src, before, p, mark);
      var more := if src.family == last.family then [ForwardRule(q, s, e, src, last)] else [];
      HitAppend(ForwardRulesFrom(q, s, e, src, before), more, EffectOf(q), p, mark);
      HitOne(ForwardRule(q, s, e, src, last), EffectOf(q), p, mark);
      ForwardRuleExact(q, s, e, src, last, p, mark);
      TakesAppend(before, [last], p, mark, true);
      TakesOne(last, p, mark, true);
      assert dsts == before + [last];
      hide ForwardExtra, AllHold, SomeTakes, Hit;
    } else {
      HitOne(ForwardRule(q, s, e, src, src), EffectOf(q), p, mark);
    }
  }

  lemma {:induction false} ForwardExact(q: Policy, s: Service, e: Effective, srcs: seq<Selector>, dsts: seq<Selector>, p: Packet, mark: bv32)
    requires RightFamilies(srcs, p, mark) && RightFamilies(dsts, p, mark)
    ensures Hit(ForwardRules(q, s, e, srcs, dsts), EffectOf(q), p, mark) <==>
      SomeTakes(srcs, p, mark, true) && SomeTakes(dsts, p, mark, true) && ForwardExtra(q, s, e, p)
  {
    if srcs != [] {
      var before, last := srcs[..|srcs| - 1], srcs[|srcs| - 1];
      ForwardExact(q, s, e, before, dsts, p, mark);
      assert RightFamily(last, p, mark);
      ForwardFromExact(q, s, e, last, dsts, p, mark);
      HitAppend(ForwardRules(q, s, e, before, dsts), ForwardRulesFrom(q, s, e, last, dsts), EffectOf(q), p, mark);
      TakesAppend(before, [last], p, mark, true);
      TakesOne(last, p, mark, true);
      assert srcs == before + [last];
      hide ForwardExtra, AllHold, SomeTakes, Hit, ForwardRulesFrom;
    }
  }

  /** The rules emitted for a policy fire on exactly the packets the policy covers. */
  lemma PolicyExact(q: Policy, e: Effective, hook: Hook, p: Packet, mark: bv32)
    requires q.service in e.services && AppliesTo(q, hook)
    ensures Hit(PolicyRules(q, e.services[q.service], e, hook), EffectOf(q), p, mark) <==> PolicyCovers(e, q, hook, p)
  {
    var s := e.services[q.service];
    match hook
    case OutputHook => OutputPolicyExact(q, s, e, p, mark);
    case InputHook => InputPolicyExact(q, s, e, p, mark);
    case ForwardHook =>
      var srcs, dsts := ZoneSelectors(q.source, false, e), ZoneSelectors(q.target, true, e);
      SelectorsExact(e, q.source, false, p, mark, true);
      SelectorsExact(e, q.target, true, p, mark, true);
      SelectorsRight(e, q.source, false, p, mark);
      SelectorsRight(e, q.target, true, p, mark);
      ForwardExact(q, s, e, srcs, dsts, p, mark);
  }

  predicate AllEffect(rules: seq<Rule>, f: Effect) {
    forall i :: 0 <= i < |rules| ==> rules[i].effect == f
  }

  lemma {:induction false} ForwardFromEffect(q: Policy, s: Service, e: Effective, src: Selector, dsts: seq<Selector>)
    ensures AllEffect(ForwardRulesFrom(q, s, e, src, dsts), EffectOf(q))
  {
    if dsts != [] {
      ForwardFromEffect(q, s, e, src, dsts[..|dsts| - 1]);
    }
  }

  lemma {:induction false} ForwardEffect(q: Policy, s: Service, e: Effective, srcs: seq<Selector>, dsts: seq<Selector>)
    ensures AllEffect(ForwardRules(q, s, e, srcs, dsts), EffectOf(q))
  {
    if srcs != [] {
      ForwardEffect(q, s, e, srcs[..|srcs| - 1], dsts);
      ForwardFromEffect(q, s, e, srcs[|srcs| - 1], dsts);
    }
  }

  lemma PolicyEffect(q: Policy, s: Service, e: Effective, hook: Hook)
    ensures AllEffect(PolicyRules(q, s, e, hook), EffectOf(q))
  {
    hide ZoneSelectors;
    ForwardEffect(q, s, e, ZoneSelectors(q.source, false, e), ZoneSelectors(q.target, true, e));
  }

  function ActionEffect(a: PolicyAction): Effect {
    if a.Allow? then Accept else Drop
  }

  lemma {:induction false} PoliciesExact(qs: seq<Policy>, e: Effective, hook: Hook, action: PolicyAction, p: Packet, mark: bv32)
    ensures AllEffect(RulesOfPolicies(qs, e, hook, action), ActionEffect(action))
    ensures Hit(RulesOfPolicies(qs, e, hook, action), ActionEffect(action), p, mark) <==>
      exists k :: 0 <= k < |qs| && DecidedBy(qs[k], e, hook, action, p)
  {
    if qs != [] {
      var before, q := qs[..|qs| - 1], qs[|qs| - 1];
      PoliciesExact(before, e, hook, action, p, mark);
      OnePolicyExact(q, e, hook, action, p, mark);
      HitAppend(RulesOfPolicies(before, e, hook, action), RulesOfPolicy(q, e, hook, action), ActionEffect(action), p, mark);
      assert forall k :: 0 <= k < |before| ==> before[k] == qs[k];
      hide DecidedBy, Hit, RulesOfPolicy;
    }
  }

  lemma OnePolicyExact(q: Policy, e: Effective, hook: Hook, action: PolicyAction, p: Packet, mark: bv32)
    ensures AllEffect(RulesOfPolicy(q, e, hook, action), ActionEffect(action))
    ensures Hit(RulesOfPolicy(q, e, hook, action), ActionEffect(action), p, mark) <==> DecidedBy(q, e, hook, action, p)
  {
    hide PolicyRules, AllHold, ServiceCovers, HasLinks, InNetworks, LinkInZone;
    if Selected(q, e, hook, action) {
      PolicyExact(q, e, hook, p, mark);
      PolicyEffect(q, e.services[q.service], e, hook);
    }
  }

  /** The policies of one action, in the order they are emitted, decide exactly what some policy decides. */
  lemma EmittedPoliciesExact(e: Effective, hook: Hook, action: PolicyAction, p: Packet, mark: bv32)
    ensures Uniform(Policies(e, hook, action), ActionEffect(action))
    ensures Hit(Policies(e, hook, action), ActionEffect(action), p, mark) <==> Decided(e, hook, action, p)
  {
    var qs := SortedPolicies(e.config);
    PoliciesExact(qs, e, hook, action, p, mark);
    SortMembers(e.config.policies, (p: Policy) => (if p.action.Deny? then "0" else "1") + p.name);
    hide DecidedBy, Hit, RulesOfPolicies;
    if k :| 0 <= k < |qs| && DecidedBy(qs[k], e, hook, action, p) {
      assert qs[k] in e.config.policies;
    }
    if k :| 0 <= k < |e.config.policies| && DecidedBy(e.config.policies[k], e, hook, action, p) {
      assert e.config.policies[k] in qs;
    }
  }
}
