/** The declarative configuration a firewall generation is compiled from, and its validation. */
module PolicyModel {
  import opened ProvenanceIds

  datatype Family = IPv4 | IPv6

  datatype Address = V4(n: nat) | V6(n: nat)

  datatype Prefix = Prefix(address: Address, bits: nat)

  datatype Role = Uplink | Vpn | Lan | Container | OtherRole(text: string)

  datatype Interface = Interface(
    name: string, role: Role, zone: string, cidrs: seq<Prefix>, provenanceName: string, id: bv8)

  datatype Zone = Zone(name: string, networks: seq<Prefix>, interfaces: seq<string>)

  datatype Protocol = Tcp | Udp | Icmp | AnyProtocol | OtherProtocol(text: string)

  datatype Service = Service(name: string, protocol: Protocol, ports: seq<int>)

  datatype PolicyAction = Allow | Deny | OtherAction(text: string)

  datatype Policy = Policy(name: string, source: string, target: string, service: string, action: PolicyAction)

  datatype Ipv6Mode = Disabled | VpnOnly | Native | OtherMode(text: string)

  datatype Config = Config(
    ipv6: Ipv6Mode,
    interfaces: seq<Interface>,
    zones: seq<Zone>,
    services: seq<Service>,
    policies: seq<Policy>,
    vpn: string,
    endpointPort: int,
    fwmark: bv32,
    mss: nat,
    trusted: seq<string>)

  // ---- Addresses ----

  function Pow2(n: nat): (r: nat)
    ensures r > 0
  {
    if n == 0 then 1 else 2 * Pow2(n - 1)
  }

  function FamilyOf(a: Address): Family {
    if a.V4? then IPv4 else IPv6
  }

  function Width(f: Family): nat {
    if f.IPv4? then 32 else 128
  }

  /** Whether an address lies in a prefix: same family, same leading bits. */
  predicate Contains(p: Prefix, a: Address) {
    && FamilyOf(a) == FamilyOf(p.address) && p.bits <= Width(FamilyOf(a))
    && var rest := Pow2(Width(FamilyOf(a)) - p.bits);
       a.n / rest == p.address.n / rest
  }

  /** The prefix written with its lowest address. */
  function Masked(p: Prefix): Prefix {
    var f := FamilyOf(p.address);
    if p.bits > Width(f) then p
    else
      var rest := Pow2(Width(f) - p.bits);
      AtLeastOnce(p.address.n / rest, rest);
      var n := p.address.n / rest * rest;
      Prefix(if f.IPv4? then V4(n) else V6(n), p.bits)
  }

  lemma AtLeastOnce(d: int, r: nat)
    ensures d >= 0 ==> d * r >= 0
    ensures d >= 1 ==> d * r >= r
    ensures d <= -1 ==> d * r + r <= 0
  {
    if d >= 1 {
      assert (d - 1) * r >= 0 && d * r == (d - 1) * r + r;
    } else if d <= -1 {
      assert (-d - 1) * r >= 0 && d * r + r == 0 - (-d - 1) * r;
    }
  }

  lemma SameQuotient(q: int, x: int, r: nat, m: nat)
    requires q * r == x * r + m && m < r
    ensures q == x
  {
    AtLeastOnce(q - x, r);
    assert (q - x) * r == m;
  }

  lemma QuotientOfMultiple(q: nat, r: nat)
    requires r > 0
    ensures q * r / r == q
  {
    var n := q * r;
    assert n == n / r * r + n % r;
    SameQuotient(q, n / r, r, n % r);
  }

  /** Masking keeps the addresses of the prefix. */
  lemma MaskedContains(p: Prefix, a: Address)
    ensures Contains(Masked(p), a) <==> Contains(p, a)
  {
    var f := FamilyOf(p.address);
    hide Pow2;
    if p.bits <= Width(f) {
      var rest := Pow2(Width(f) - p.bits);
      QuotientOfMultiple(p.address.n / rest, rest);
      assert Masked(p).address.n / rest == p.address.n / rest;
    }
  }

  /** An IPv4 address written inside IPv6 is judged as the IPv4 address. */
  function Unmapped(a: Address): Address {
    if a.V6? && a.n / 0x1_0000_0000 == 0xffff then V4(a.n % 0x1_0000_0000) else a
  }

  /** Private as in section 3 of RFC 1918, or unique local. */
  predicate IsPrivate(a: Address) {
    match Unmapped(a)
    case V4(n) => n / 0x1000000 == 10 || n / 0x100000 == 0xac1 || n / 0x10000 == 0xc0a8
    case V6(n) => n / Pow2(121) == 0x7e
  }

  predicate IsLinkLocal(a: Address) {
    match Unmapped(a)
    case V4(n) => n / 0x10000 == 0xa9fe
    case V6(n) => n / Pow2(118) == 0x3fa
  }

  predicate IsLoopback(a: Address) {
    match Unmapped(a)
    case V4(n) => n / 0x1000000 == 127
    case V6(n) => n == 1
  }

  /** Looks only at the address the prefix is written with. */
  predicate RequiresVpn(p: Prefix) {
    !IsPrivate(p.address) && !IsLinkLocal(p.address) && !IsLoopback(p.address)
  }

  // ---- What a validated configuration satisfies ----

  predicate NameOk(s: string) {
    && 1 <= |s| <= 63 && Letter(s[0])
    && forall i :: 1 <= i < |s| ==> Letter(s[i]) || Digit(s[i]) || s[i] in "_.-"
  }

  predicate InterfaceNameOk(s: string) {
    1 <= |s| <= 15 && forall i :: 0 <= i < |s| ==> Letter(s[i]) || Digit(s[i]) || s[i] in "_.-"
  }

  function ProvenanceName(i: Interface): string {
    if i.provenanceName != "" then i.provenanceName else i.name
  }

  predicate InterfaceOk(i: Interface) {
    InterfaceNameOk(i.name) && !i.role.OtherRole? && MIN_ID <= i.id <= MAX_ID && IdentityOk(ProvenanceName(i))
  }

  function Assignments(links: seq<Interface>): seq<Assignment> {
    seq(|links|, i requires 0 <= i < |links| => Assignment(ProvenanceName(links[i]), links[i].id, false))
  }

  predicate NamesDiffer(links: seq<Interface>) {
    forall i, j :: 0 <= i < j < |links| ==> links[i].name != links[j].name
  }

  predicate InterfacesOk(links: seq<Interface>) {
    (forall i :: 0 <= i < |links| ==> InterfaceOk(links[i])) && NamesDiffer(links) && ActiveOk(Assignments(links))
  }

  predicate OneUplink(links: seq<Interface>) {
    && (exists i :: 0 <= i < |links| && links[i].role.Uplink?)
    && (forall i, j :: 0 <= i < j < |links| ==> !(links[i].role.Uplink? && links[j].role.Uplink?))
  }

  predicate Declares(links: seq<Interface>, name: string) {
    exists i :: 0 <= i < |links| && links[i].name == name
  }

  predicate ZoneOk(c: Config, z: Zone) {
    && NameOk(z.name)
    && (forall j :: 0 <= j < |z.interfaces| ==> Declares(c.interfaces, z.interfaces[j]))
  }

  predicate ZonesOk(c: Config) {
    && (forall k :: 0 <= k < |c.zones| ==> ZoneOk(c, c.zones[k]))
    && (forall k, l :: 0 <= k < l < |c.zones| ==> c.zones[k].name != c.zones[l].name)
  }

  predicate HasZone(c: Config, name: string) {
    exists k :: 0 <= k < |c.zones| && c.zones[k].name == name
  }

  predicate ServiceOk(s: Service) {
    && NameOk(s.name) && !s.protocol.OtherProtocol?
    && (s.protocol.Icmp? || s.protocol.AnyProtocol? <==> s.ports == [])
    && (forall i :: 0 <= i < |s.ports| ==> 1 <= s.ports[i] <= 65535)
    && (forall i, j :: 0 <= i < j < |s.ports| ==> s.ports[i] != s.ports[j])
  }

  predicate ServicesOk(c: Config) {
    && (forall k :: 0 <= k < |c.services| ==> ServiceOk(c.services[k]))
    && (forall k, l :: 0 <= k < l < |c.services| ==> c.services[k].name != c.services[l].name)
  }

  predicate HasService(c: Config, name: string) {
    exists k :: 0 <= k < |c.services| && c.services[k].name == name
  }

  /** Some interface that the zone lists, or that names the zone, is the uplink. */
  predicate ReachesUplink(c: Config, zone: string) {
    exists i :: 0 <= i < |c.interfaces| && c.interfaces[i].role.Uplink? && InZone(c, c.interfaces[i], zone)
  }

  predicate InZone(c: Config, i: Interface, zone: string) {
    i.zone == zone || exists k :: 0 <= k < |c.zones| && c.zones[k].name == zone && i.name in c.zones[k].interfaces
  }

  predicate PolicyOk(c: Config, p: Policy) {
    && NameOk(p.name) && !p.action.OtherAction?
    && (p.source == "any" || p.source == "host" || HasZone(c, p.source))
    && (p.target == "any" || p.target == "host" || HasZone(c, p.target))
    && HasService(c, p.service)
    && ((p.source == "host" || p.source == "any") && p.target != "host" && p.target != "any" ==> !ReachesUplink(c, p.target))
  }

  predicate PoliciesOk(c: Config) {
    && (forall k :: 0 <= k < |c.policies| ==> PolicyOk(c, c.policies[k]))
    && (forall k, l :: 0 <= k < l < |c.policies| ==>
      && c.policies[k].name != c.policies[l].name
      && (c.policies[k].source, c.policies[k].target, c.policies[k].service)
        != (c.policies[l].source, c.policies[l].target, c.policies[l].service))
  }

  predicate VpnOk(c: Config) {
    && InterfaceNameOk(c.vpn)
    && (exists i :: 0 <= i < |c.interfaces| && c.interfaces[i].name == c.vpn && c.interfaces[i].role.Vpn?)
    && 1 <= c.endpointPort <= 65535 && c.fwmark != 0 && 536 <= c.mss <= 8960
  }

  predicate Validated(c: Config) {
    && !c.ipv6.OtherMode?
    && InterfacesOk(c.interfaces) && OneUplink(c.interfaces)
    && ZonesOk(c) && ServicesOk(c) && PoliciesOk(c) && VpnOk(c)
  }

  // ---- Validation ----

  method CheckName(s: string) returns (ok: bool)
    ensures ok <==> NameOk(s)
  {
    if s == "" || |s| > 63 {
      return false;
    }
    for i := 0 to |s|
      invariant forall k :: 0 <= k < i ==> Letter(s[k]) || (k > 0 && (Digit(s[k]) || s[k] in "_.-"))
    {
      var letter := 'a' <= s[i] <= 'z' || 'A' <= s[i] <= 'Z';
      var other := '0' <= s[i] <= '9' || s[i] == '_' || s[i] == '.' || s[i] == '-';
      if !letter && (i == 0 || !other) {
        return false;
      }
    }
    ok := true;
  }

  method CheckInterfaceName(s: string) returns (ok: bool)
    ensures ok <==> InterfaceNameOk(s)
  {
    if s == "" || |s| > 15 {
      return false;
    }
    for i := 0 to |s|
      invariant forall k :: 0 <= k < i ==> Letter(s[k]) || Digit(s[k]) || s[k] in "_.-"
    {
      var plain := 'a' <= s[i] <= 'z' || 'A' <= s[i] <= 'Z' || '0' <= s[i] <= '9';
      if !plain && s[i] != '_' && s[i] != '.' && s[i] != '-' {
        return false;
      }
    }
    ok := true;
  }

  method CheckInterface(i: Interface) returns (ok: bool)
    ensures ok <==> InterfaceOk(i)
  {
    ok := CheckInterfaceName(i.name);
    if ok {
      ok := CheckIdentity(if i.provenanceName == "" then i.name else i.provenanceName);
    }
    if i.role.OtherRole? || i.id < 1 || i.id > 254 {
      ok := false;
    }
  }

  method ValidateInterfaces(links: seq<Interface>) returns (ok: bool)
    ensures ok <==> InterfacesOk(links)
  {
    var names: set<string> := {};
    for i := 0 to |links|
      invariant names == set k | 0 <= k < i :: links[k].name
      invariant forall k :: 0 <= k < i ==> InterfaceOk(links[k])
      invariant forall k, l :: 0 <= k < l < i ==> links[k].name != links[l].name
    {
      var good := CheckInterface(links[i]);
      if !good || links[i].name in names {
        return false;
      }
      names := names + {links[i].name};
    }
    ok := ValidateActive(Assignments(links));
  }

  function UplinksIn(links: seq<Interface>): nat {
    if links == [] then 0
    else UplinksIn(links[..|links| - 1]) + if links[|links| - 1].role.Uplink? then 1 else 0
  }

  method CountUplinks(links: seq<Interface>) returns (n: nat)
    ensures n == UplinksIn(links)
  {
    n := 0;
    for i := 0 to |links|
      invariant n == UplinksIn(links[..i])
    {
      assert links[..i + 1][..i] == links[..i];
      if links[i].role.Uplink? {
        n := n + 1;
      }
    }
    assert links[..|links|] == links;
  }

  lemma {:induction false} NoUplink(links: seq<Interface>)
    ensures UplinksIn(links) == 0 <==> forall i :: 0 <= i < |links| ==> !links[i].role.Uplink?
  {
    if links != [] {
      var before := links[..|links| - 1];
      NoUplink(before);
      assert forall i :: 0 <= i < |before| ==> before[i] == links[i];
    }
  }

  lemma {:induction false} ExactlyOneUplink(links: seq<Interface>)
    ensures UplinksIn(links) == 1 <==> OneUplink(links)
  {
    if links != [] {
      var before := links[..|links| - 1];
      ExactlyOneUplink(before);
      NoUplink(before);
      assert forall i :: 0 <= i < |before| ==> before[i] == links[i];
    }
  }

  method CheckZone(c: Config, z: Zone) returns (ok: bool)
    ensures ok <==> ZoneOk(c, z)
  {
    ok := CheckName(z.name);
    if !ok {
      return;
    }
    var declared := set i | 0 <= i < |c.interfaces| :: c.interfaces[i].name;
    for j := 0 to |z.interfaces|
      invariant forall k :: 0 <= k < j ==> Declares(c.interfaces, z.interfaces[k])
    {
      if z.interfaces[j] !in declared {
        assert !Declares(c.interfaces, z.interfaces[j]);
        return false;
      }
    }
  }

  method ValidateZones(c: Config) returns (ok: bool)
    ensures ok <==> ZonesOk(c)
  {
    var names: set<string> := {};
    for k := 0 to |c.zones|
      invariant names == set l | 0 <= l < k :: c.zones[l].name
      invariant forall l :: 0 <= l < k ==> ZoneOk(c, c.zones[l])
      invariant forall l, m :: 0 <= l < m < k ==> c.zones[l].name != c.zones[m].name
    {
      var good := CheckZone(c, c.zones[k]);
      if !good || c.zones[k].name in names {
        return false;
      }
      names := names + {c.zones[k].name};
    }
    ok := true;
  }

  /** Ports are in range and none is listed twice; only TCP and UDP have any. */
  method CheckService(s: Service) returns (ok: bool)
    ensures ok <==> ServiceOk(s)
  {
    ok := CheckName(s.name);
    if !ok {
      return;
    }
    match s.protocol {
      case Tcp | Udp => ok := s.ports != [];
      case Icmp | AnyProtocol => ok := s.ports == [];
      case OtherProtocol(_) => ok := false;
    }
    if !ok {
      return;
    }
    var seen: set<int> := {};
    for i := 0 to |s.ports|
      invariant seen == set k | 0 <= k < i :: s.ports[k]
      invariant forall k :: 0 <= k < i ==> 1 <= s.ports[k] <= 65535
      invariant forall k, l :: 0 <= k < l < i ==> s.ports[k] != s.ports[l]
    {
      if s.ports[i] < 1 || s.ports[i] > 65535 || s.ports[i] in seen {
        return false;
      }
      seen := seen + {s.ports[i]};
    }
  }

  method ValidateServices(c: Config) returns (ok: bool)
    ensures ok <==> ServicesOk(c)
  {
    var names: set<string> := {};
    for k := 0 to |c.services|
      invariant names == set l | 0 <= l < k :: c.services[l].name
      invariant forall l :: 0 <= l < k ==> ServiceOk(c.services[l])
      invariant forall l, m :: 0 <= l < m < k ==> c.services[l].name != c.services[m].name
    {
      var good := CheckService(c.services[k]);
      if !good || c.services[k].name in names {
        return false;
      }
      names := names + {c.services[k].name};
    }
    ok := true;
  }

  function Flow(p: Policy): (string, string, string) {
    (p.source, p.target, p.service)
  }

  /** Looks through the uplinks for one that names the zone or that the zone lists. */
  method FindUplinkIn(c: Config, zone: string) returns (found: bool)
    ensures found <==> ReachesUplink(c, zone)
  {
    for i := 0 to |c.interfaces|
      invariant forall k :: 0 <= k < i ==> !(c.interfaces[k].role.Uplink? && InZone(c, c.interfaces[k], zone))
    {
      var l := c.interfaces[i];
      if l.role.Uplink? {
        if l.zone == zone {
          assert InZone(c, l, zone);
          return true;
        }
        for k := 0 to |c.zones|
          invariant forall m :: 0 <= m < k ==> !(c.zones[m].name == zone && l.name in c.zones[m].interfaces)
        {
          if c.zones[k].name == zone && l.name in c.zones[k].interfaces {
            assert InZone(c, l, zone);
            return true;
          }
        }
      }
    }
    found := false;
  }

  method CheckPolicy(c: Config, p: Policy) returns (ok: bool)
    ensures ok <==> PolicyOk(c, p)
  {
    var zones := set k | 0 <= k < |c.zones| :: c.zones[k].name;
    var services := set k | 0 <= k < |c.services| :: c.services[k].name;
    assert forall n :: n in zones <==> HasZone(c, n);
    assert forall n :: n in services <==> HasService(c, n);
    ok := CheckName(p.name);
    if !ok || p.action.OtherAction? || p.service !in services {
      return false;
    }
    if (p.source != "any" && p.source != "host" && p.source !in zones) || (p.target != "any" && p.target != "host" && p.target !in zones) {
      return false;
    }
    if (p.source == "host" || p.source == "any") && p.target != "host" && p.target != "any" {
      var reaches := FindUplinkIn(c, p.target);
      ok := !reaches;
    }
  }

  method ValidatePolicies(c: Config) returns (ok: bool)
    ensures ok <==> PoliciesOk(c)
  {
    hide PolicyOk;
    var names: set<string> := {};
    var flows: set<(string, string, string)> := {};
    for k := 0 to |c.policies|
      invariant names == set l | 0 <= l < k :: c.policies[l].name
      invariant flows == set l | 0 <= l < k :: Flow(c.policies[l])
      invariant forall l :: 0 <= l < k ==> PolicyOk(c, c.policies[l])
      invariant forall l, m :: 0 <= l < m < k ==>
        c.policies[l].name != c.policies[m].name && Flow(c.policies[l]) != Flow(c.policies[m])
    {
      var good := CheckPolicy(c, c.policies[k]);
      if !good || c.policies[k].name in names || Flow(c.policies[k]) in flows {
        return false;
      }
      names, flows := names + {c.policies[k].name}, flows + {Flow(c.policies[k])};
    }
    ok := true;
  }

  method CheckVpn(c: Config) returns (ok: bool)
    ensures ok <==> VpnOk(c)
  {
    ok := CheckInterfaceName(c.vpn);
    if !ok || c.endpointPort < 1 || c.endpointPort > 65535 || c.fwmark == 0 || c.mss < 536 || c.mss > 8960 {
      return false;
    }
    for i := 0 to |c.interfaces|
      invariant forall k :: 0 <= k < i ==> !(c.interfaces[k].name == c.vpn && c.interfaces[k].role.Vpn?)
    {
      if c.interfaces[i].name == c.vpn && c.interfaces[i].role.Vpn? {
        return true;
      }
    }
    ok := false;
  }

  method Validate(c: Config) returns (ok: bool)
    ensures ok <==> Validated(c)
  {
    if c.ipv6.OtherMode? {
      return false;
    }
    ok := ValidateInterfaces(c.interfaces);
    if !ok {
      return;
    }
    var uplinks := CountUplinks(c.interfaces);
    ExactlyOneUplink(c.interfaces);
    if uplinks != 1 {
      return false;
    }
    ok := ValidateZones(c);
    if !ok {
      return;
    }
    ok := ValidateServices(c);
    if !ok {
      return;
    }
    ok := ValidatePolicies(c);
    if !ok {
      return;
    }
    ok := CheckVpn(c);
  }

  // ---- Facts the traffic theorems start from ----

  /** The first interface with the role, as the compiler looks it up. */
  function UplinkName(links: seq<Interface>): string {
    if links == [] then "" else if links[0].role.Uplink? then links[0].name else UplinkName(links[1..])
  }

  lemma {:induction false} UplinkIsDeclared(links: seq<Interface>)
    requires exists i :: 0 <= i < |links| && links[i].role.Uplink?
    ensures exists i :: 0 <= i < |links| && links[i].role.Uplink? && links[i].name == UplinkName(links)
  {
    if links[0].role.Uplink? {
    } else {
      var i :| 0 <= i < |links| && links[i].role.Uplink?;
      assert links[1..][i - 1] == links[i];
      UplinkIsDeclared(links[1..]);
      var j :| 0 <= j < |links[1..]| && links[1..][j].role.Uplink? && links[1..][j].name == UplinkName(links[1..]);
      assert links[j + 1] == links[1..][j];
    }
  }

  /** Interface names and ids are one-to-one. */
  lemma IdsAreOneToOne(c: Config, i: Interface, j: Interface)
    requires Validated(c) && i in c.interfaces && j in c.interfaces
    ensures i.name == j.name || i.id == j.id ==> i == j
    ensures i.id != 0
  {
    hide ZonesOk, ServicesOk, PoliciesOk, VpnOk, OneUplink, IdentityOk, InterfaceNameOk, ProvenanceName;
    var k :| 0 <= k < |c.interfaces| && c.interfaces[k] == i;
    var l :| 0 <= l < |c.interfaces| && c.interfaces[l] == j;
    var xs := Assignments(c.interfaces);
    assert InterfaceOk(c.interfaces[k]);
    assert xs[k].id == i.id && xs[l].id == j.id;
  }
}
