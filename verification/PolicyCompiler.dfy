/**
 The compiler from a validated configuration to the three base chains, as rule lists: what each
 emitter appends, the writer that appends it, and what the emitted rules say about packets.
 */
module PolicyCompiler {
  import opened Wrappers
  import opened Texts
  import opened MarkBits
  import opened PolicyModel
  import opened PacketRules

  datatype Effective = Effective(config: Config, zones: map<string, Zone>, services: map<string, Service>)

  /** The runtime sets beside the policy; leases are what the kernel's timed sets hold at the moment. */
  datatype Input = Input(
    e: Effective,
    blocked4: seq<Prefix>, blocked6: seq<Prefix>,
    leases4: seq<Prefix>, leases6: seq<Prefix>,
    bootstrap4: seq<Prefix>, bootstrap6: seq<Prefix>)

  datatype Hook = InputHook | OutputHook | ForwardHook

  // ---- The effective policy ----

  ghost predicate Faithful(e: Effective) {
    && Validated(e.config)
    && (forall k :: 0 <= k < |e.config.zones| ==> var z := e.config.zones[k]; z.name in e.zones && e.zones[z.name] == z)
    && (forall n :: n in e.zones ==> e.zones[n] in e.config.zones && e.zones[n].name == n)
    && (forall k :: 0 <= k < |e.config.services| ==> var s := e.config.services[k]; s.name in e.services && e.services[s.name] == s)
    && (forall n :: n in e.services ==> e.services[n] in e.config.services && e.services[n].name == n)
  }

  method CompilePolicy(c: Config) returns (r: Option<Effective>)
    ensures r.Some? <==> Validated(c)
    ensures r.Some? ==> Faithful(r.value) && r.value.config == c
  {
    var ok := Validate(c);
    if !ok {
      return None;
    }
    var zones := IndexZones(c);
    var services := IndexServices(c);
    r := Some(Effective(c, zones, services));
  }

  method IndexZones(c: Config) returns (zones: map<string, Zone>)
    requires Validated(c)
    ensures forall k :: 0 <= k < |c.zones| ==> c.zones[k].name in zones && zones[c.zones[k].name] == c.zones[k]
    ensures forall n :: n in zones ==> zones[n] in c.zones && zones[n].name == n
  {
    zones := map[];
    for k := 0 to |c.zones|
      invariant forall l :: 0 <= l < k ==> c.zones[l].name in zones && zones[c.zones[l].name] == c.zones[l]
      invariant forall n :: n in zones ==> zones[n] in c.zones && zones[n].name == n
    {
      zones := zones[c.zones[k].name := c.zones[k]];
    }
  }

  method IndexServices(c: Config) returns (services: map<string, Service>)
    requires Validated(c)
    ensures forall k :: 0 <= k < |c.services| ==> c.services[k].name in services && services[c.services[k].name] == c.services[k]
    ensures forall n :: n in services ==> services[n] in c.services && services[n].name == n
  {
    services := map[];
    for k := 0 to |c.services|
      invariant forall l :: 0 <= l < k ==> c.services[l].name in services && services[c.services[l].name] == c.services[l]
      invariant forall n :: n in services ==> services[n] in c.services && services[n].name == n
    {
      services := services[c.services[k].name := c.services[k]];
    }
  }

  // ---- Interfaces and bindings ----

  function SortedInterfaces(links: seq<Interface>): seq<Interface> {
    SortBy(links, (i: Interface) => i.name)
  }

  lemma SortedSame(links: seq<Interface>)
    ensures forall i :: i in SortedInterfaces(links) <==> i in links
  {
    SortMembers(links, (i: Interface) => i.name);
  }

  datatype InterfaceRuleKind = TagIn | TagOut | ReplyOut | ReplyIn

  function InterfaceRule(kind: InterfaceRuleKind, i: Interface): Rule {
    match kind
    case TagIn => Rule([Iif(i.name), Directed(Original), MarkByte(0)], Tag(i.id))
    case TagOut => Rule([Oif(i.name), Directed(Original), MarkByte(0)], Tag(i.id))
    case ReplyOut => Rule([Oif(i.name), MarkByte(Encoded(i.id)), Directed(Reply), InState({Established, Related})], Accept)
    case ReplyIn => Rule([Iif(i.name), MarkByte(Encoded(i.id)), Directed(Reply), InState({Established, Related})], Accept)
  }

  function InterfaceRules(kind: InterfaceRuleKind, links: seq<Interface>): (r: seq<Rule>)
    ensures |r| == |links| && forall k :: 0 <= k < |links| ==> r[k] == InterfaceRule(kind, links[k])
  {
    seq(|links|, k requires 0 <= k < |links| => InterfaceRule(kind, links[k]))
  }

  datatype Binding = Binding(link: string, prefix: Prefix)

  function CidrBindings(link: string, cidrs: seq<Prefix>): (r: seq<Binding>)
    ensures |r| == |cidrs| && forall k :: 0 <= k < |cidrs| ==> r[k] == Binding(link, Masked(cidrs[k]))
  {
    seq(|cidrs|, k requires 0 <= k < |cidrs| => Binding(link, Masked(cidrs[k])))
  }

  /** One binding for each prefix of each container interface. */
  function BindingsIn(links: seq<Interface>): seq<Binding> {
    if links == [] then []
    else
      var last := links[|links| - 1];
      BindingsIn(links[..|links| - 1]) + if last.role.Container? then CidrBindings(last.name, last.cidrs) else []
  }

  function ContainerBindings(c: Config): seq<Binding> {
    SortBy(BindingsIn(c.interfaces), (b: Binding) => b.link)
  }

  datatype BindingRuleKind = PathErrors | Guards | Markers

  function BindingRules(kind: BindingRuleKind, b: Binding, c: Config): seq<Rule> {
    match kind
    case PathErrors =>
      if b.prefix.address.V4? then
        [Rule([Oif(b.link), DestinationIn(b.prefix), Carries(IcmpPacket),
               IcmpIs({DestinationUnreachable, TimeExceeded, ParameterProblem})], Accept)]
      else
        [Rule([Oif(b.link), DestinationIn(b.prefix), Carries(Icmp6Packet),
               IcmpIs({DestinationUnreachable, PacketTooBig, TimeExceeded, ParameterProblem})], Accept)]
    case Guards =>
      [Rule([Iif(b.link), SourceIn(b.prefix), Oif(c.vpn), SynOnly], Clamp(c.mss)),
       Rule([Iif(c.vpn), Oif(b.link), DestinationIn(b.prefix), SynOnly], Clamp(c.mss)),
       Rule([Iif(b.link), SourceIn(b.prefix), Oif(UplinkName(c.interfaces))], Drop)]
    case Markers =>
      [Rule([Iif(b.link), SourceIn(b.prefix), Oif(c.vpn)], Count)]
  }

  function AllBindingRules(kind: BindingRuleKind, bs: seq<Binding>, c: Config): seq<Rule> {
    if bs == [] then [] else AllBindingRules(kind, bs[..|bs| - 1], c) + BindingRules(kind, bs[|bs| - 1], c)
  }

  // ---- Zones and services ----

  datatype Selector = Selector(matches: seq<Match>, family: Family, requiresVpn: bool)

  function AddressMatch(p: Prefix, destination: bool): Match {
    if destination then DestinationIn(p) else SourceIn(p)
  }

  function LinkMatch(name: string, destination: bool): Match {
    if destination then Oif(name) else Iif(name)
  }

  function NetworkSelectors(networks: seq<Prefix>, destination: bool): (r: seq<Selector>)
    ensures |r| == |networks|
    ensures forall k :: 0 <= k < |networks| ==>
      r[k] == Selector([AddressMatch(networks[k], destination)], FamilyOf(networks[k].address), RequiresVpn(networks[k]))
  {
    seq(|networks|, k requires 0 <= k < |networks| =>
      Selector([AddressMatch(networks[k], destination)], FamilyOf(networks[k].address), RequiresVpn(networks[k])))
  }

  /** The configured interfaces that name the zone. */
  function NamedIn(links: seq<Interface>, zone: string): seq<string> {
    if links == [] then []
    else NamedIn(links[..|links| - 1], zone) + if links[|links| - 1].zone == zone then [links[|links| - 1].name] else []
  }

  /** Drops every element equal to the one before it. */
  function Dedup(xs: seq<string>): seq<string> {
    if |xs| <= 1 then xs
    else
      var before := Dedup(xs[..|xs| - 1]);
      if xs[|xs| - 1] == xs[|xs| - 2] then before else before + [xs[|xs| - 1]]
  }

  lemma {:induction false} DedupMembers(xs: seq<string>, x: string)
    ensures x in Dedup(xs) <==> x in xs
  {
    if |xs| > 1 {
      var before := xs[..|xs| - 1];
      DedupMembers(before, x);
      assert xs == before + [xs[|xs| - 1]];
      assert before[|before| - 1] == xs[|xs| - 2];
    }
  }

  function Unique(xs: seq<string>): seq<string> {
    Dedup(SortBy(xs, (x: string) => x))
  }

  function CrossOne(s: Selector, names: seq<string>, destination: bool): (r: seq<Selector>)
    ensures |r| == |names|
    ensures forall k :: 0 <= k < |names| ==> r[k] == s.(matches := [LinkMatch(names[k], destination)] + s.matches)
  {
    seq(|names|, k requires 0 <= k < |names| => s.(matches := [LinkMatch(names[k], destination)] + s.matches))
  }

  function Cross(ss: seq<Selector>, names: seq<string>, destination: bool): seq<Selector> {
    if ss == [] then [] else Cross(ss[..|ss| - 1], names, destination) + CrossOne(ss[|ss| - 1], names, destination)
  }

  function BothFamilies(prefix: seq<Match>): seq<Selector> {
    [Selector(prefix + [Nf(IPv4)], IPv4, false), Selector(prefix + [Nf(IPv6)], IPv6, false)]
  }

  function LinkSelectors(names: seq<string>, destination: bool): seq<Selector> {
    if names == [] then []
    else LinkSelectors(names[..|names| - 1], destination) + BothFamilies([LinkMatch(names[|names| - 1], destination)])
  }

  function ZoneLinks(e: Effective, name: string): seq<string>
    requires name in e.zones
  {
    Unique(e.zones[name].interfaces + NamedIn(e.config.interfaces, name))
  }

  function ZoneSelectors(name: string, destination: bool, e: Effective): seq<Selector> {
    if name == "host" then []
    else if name == "any" then BothFamilies([])
    else if name !in e.zones then []
    else
      var networks, links := NetworkSelectors(e.zones[name].networks, destination), ZoneLinks(e, name);
      if networks != [] && links != [] then Cross(networks, links, destination)
      else if networks != [] then networks
      else LinkSelectors(links, destination)
  }

  function PortsOf(ports: seq<int>): set<int> {
    set i | 0 <= i < |ports| :: ports[i]
  }

  function ServiceMatches(s: Service, f: Family): seq<Match> {
    match s.protocol
    case AnyProtocol => []
    case Icmp => [Carries(if f == IPv6 then Icmp6Packet else IcmpPacket)]
    case Tcp => [Carries(TcpPacket), DstPort(PortsOf(s.ports))]
    case Udp => [Carries(UdpPacket), DstPort(PortsOf(s.ports))]
    case OtherProtocol(_) => [Carries(OtherTransport(0)), DstPort(PortsOf(s.ports))]
  }

  // ---- Policies ----

  function SortedPolicies(c: Config): seq<Policy> {
    SortBy(c.policies, (p: Policy) => (if p.action.Deny? then "0" else "1") + p.name)
  }

  predicate AppliesTo(p: Policy, hook: Hook) {
    match hook
    case InputHook => p.target == "host" && p.source != "host"
    case OutputHook => (p.source == "host" || p.source == "any") && p.target != "host"
    case ForwardHook => p.source != "host" && p.target != "host"
  }

  function EffectOf(p: Policy): Effect {
    if p.action.Allow? then Accept else Drop
  }

  /** The output rule for one destination selector. */
  function OutputRule(p: Policy, s: Service, e: Effective, dst: Selector): Rule {
    Rule(dst.matches + (if p.target == "any" || dst.requiresVpn then [Oif(e.config.vpn)] else []) + ServiceMatches(s, dst.family),
      EffectOf(p))
  }

  function OutputRules(p: Policy, s: Service, e: Effective, dsts: seq<Selector>): (r: seq<Rule>)
    ensures |r| == |dsts| && forall k :: 0 <= k < |dsts| ==> r[k] == OutputRule(p, s, e, dsts[k])
  {
    seq(|dsts|, k requires 0 <= k < |dsts| => OutputRule(p, s, e, dsts[k]))
  }

  function InputRule(p: Policy, s: Service, src: Selector): Rule {
    Rule(src.matches + ServiceMatches(s, src.family), EffectOf(p))
  }

  function InputRules(p: Policy, s: Service, srcs: seq<Selector>): (r: seq<Rule>)
    ensures |r| == |srcs| && forall k :: 0 <= k < |srcs| ==> r[k] == InputRule(p, s, srcs[k])
  {
    seq(|srcs|, k requires 0 <= k < |srcs| => InputRule(p, s, srcs[k]))
  }

  function ForwardRule(p: Policy, s: Service, e: Effective, src: Selector, dst: Selector): Rule {
    Rule(src.matches + dst.matches + (if p.target == "any" then [Oif(e.config.vpn)] else []) + ServiceMatches(s, src.family),
      EffectOf(p))
  }

  function ForwardRulesFrom(p: Policy, s: Service, e: Effective, src: Selector, dsts: seq<Selector>): seq<Rule> {
    if dsts == [] then []
    else
      var last := dsts[|dsts| - 1];
      ForwardRulesFrom(p, s, e, src, dsts[..|dsts| - 1])
        + if src.family == last.family then [ForwardRule(p, s, e, src, last)] else []
  }

  function ForwardRules(p: Policy, s: Service, e: Effective, srcs: seq<Selector>, dsts: seq<Selector>): seq<Rule> {
    if srcs == [] then []
    else ForwardRules(p, s, e, srcs[..|srcs| - 1], dsts) + ForwardRulesFrom(p, s, e, srcs[|srcs| - 1], dsts)
  }

  function PolicyRules(p: Policy, s: Service, e: Effective, hook: Hook): seq<Rule> {
    match hook
    case OutputHook => OutputRules(p, s, e, ZoneSelectors(p.target, true, e))
    case InputHook => InputRules(p, s, ZoneSelectors(p.source, false, e))
    case ForwardHook => ForwardRules(p, s, e, ZoneSelectors(p.source, false, e), ZoneSelectors(p.target, true, e))
  }

  predicate Selected(p: Policy, e: Effective, hook: Hook, action: PolicyAction) {
    p.action == action && AppliesTo(p, hook) && p.service in e.services
  }

  function RulesOfPolicy(p: Policy, e: Effective, hook: Hook, action: PolicyAction): seq<Rule> {
    if Selected(p, e, hook, action) then PolicyRules(p, e.services[p.service], e, hook) else []
  }

  function RulesOfPolicies(ps: seq<Policy>, e: Effective, hook: Hook, action: PolicyAction): seq<Rule> {
    if ps == [] then []
    else RulesOfPolicies(ps[..|ps| - 1], e, hook, action) + RulesOfPolicy(ps[|ps| - 1], e, hook, action)
  }

  function Policies(e: Effective, hook: Hook, action: PolicyAction): seq<Rule> {
    RulesOfPolicies(SortedPolicies(e.config), e, hook, action)
  }

  // ---- The chains ----

  const INVALID_DROP := Rule([InState({Invalid})], Drop)

  const NEIGHBOR_DISCOVERY := Rule(
    [HopLimit(255), Carries(Icmp6Packet), IcmpIs({NeighborSolicit, NeighborAdvert, RouterSolicit, RouterAdvert})], Accept)

  function Only6(c: Config, rules: seq<Rule>): seq<Rule> {
    if c.ipv6.Disabled? then [] else rules
  }

  function TrustedPorts(e: Effective, protocol: Protocol, n: nat): set<int>
    requires n <= |e.config.trusted|
  {
    if n == 0 then {}
    else
      var name := e.config.trusted[n - 1];
      TrustedPorts(e, protocol, n - 1)
        + if name in e.services && e.services[name].protocol == protocol then PortsOf(e.services[name].ports) else {}
  }

  function TrustedRules(in_: Input, protocol: Protocol, transport: Transport): seq<Rule> {
    var ports := TrustedPorts(in_.e, protocol, |in_.e.config.trusted|);
    if ports == {} then []
    else
      [Rule([SourceSet(Trusted4, in_.leases4), Carries(transport), DstPort(ports)], Accept),
       Rule([SourceSet(Trusted6, in_.leases6), Carries(transport), DstPort(ports)], Accept)]
  }

  function InputLayers(in_: Input): Layered {
    var c := in_.e.config;
    var links := SortedInterfaces(c.interfaces);
    Layered(
      [INVALID_DROP],
      [Rule([Iif("lo")], Accept)],
      InterfaceRules(TagIn, links),
      Only6(c, [NEIGHBOR_DISCOVERY]) + TrustedRules(in_, Tcp, TcpPacket) + TrustedRules(in_, Udp, UdpPacket),
      Policies(in_.e, InputHook, Deny),
      InterfaceRules(ReplyIn, links),
      [Rule([SourceSet(Blocked4, in_.blocked4)], Drop), Rule([SourceSet(Blocked6, in_.blocked6)], Drop)],
      Policies(in_.e, InputHook, Allow))
  }

  function BootstrapRules(in_: Input): seq<Rule> {
    var c := in_.e.config;
    var uplink := UplinkName(c.interfaces);
    if c.endpointPort <= 0 then []
    else
      [Rule([Oif(uplink), FwMark(c.fwmark), DestinationSet(Bootstrap4, in_.bootstrap4), Carries(UdpPacket), DstPortIs(c.endpointPort)], Accept),
       Rule([Oif(uplink), FwMark(c.fwmark), DestinationSet(Bootstrap6, in_.bootstrap6), Carries(UdpPacket), DstPortIs(c.endpointPort)], Accept)]
  }

  function DhcpV6Rule(c: Config): Rule {
    Rule([Oif(UplinkName(c.interfaces)), Carries(UdpPacket), SrcPort(546), DstPortIs(547)], Accept)
  }

  function DhcpRule(c: Config): Rule {
    Rule([Oif(UplinkName(c.interfaces)), Carries(UdpPacket), SrcPort(68), DstPortIs(67)], Accept)
  }

  function OutputLayers(in_: Input): Layered {
    var c := in_.e.config;
    var links := SortedInterfaces(c.interfaces);
    Layered(
      [INVALID_DROP],
      [],
      InterfaceRules(TagOut, links),
      [Rule([Oif("lo")], Accept)] + InterfaceRules(ReplyOut, links) + AllBindingRules(PathErrors, ContainerBindings(c), c)
        + Only6(c, [NEIGHBOR_DISCOVERY, DhcpV6Rule(c)]) + [DhcpRule(c)] + BootstrapRules(in_),
      [Rule([DestinationSet(Blocked4, in_.blocked4)], Drop), Rule([DestinationSet(Blocked6, in_.blocked6)], Drop), Rule([Oif(c.vpn)], Count)]
        + Policies(in_.e, OutputHook, Deny),
      [], [],
      Policies(in_.e, OutputHook, Allow))
  }

  function ForwardLayers(in_: Input): Layered {
    var c := in_.e.config;
    var links := SortedInterfaces(c.interfaces);
    var bindings := ContainerBindings(c);
    Layered(
      [INVALID_DROP],
      [],
      InterfaceRules(TagIn, links),
      InterfaceRules(ReplyOut, links),
      [Rule([SourceSet(Blocked4, in_.blocked4)], Drop), Rule([DestinationSet(Blocked4, in_.blocked4)], Drop),
       Rule([SourceSet(Blocked6, in_.blocked6)], Drop), Rule([DestinationSet(Blocked6, in_.blocked6)], Drop)]
        + AllBindingRules(Guards, bindings, c)
        + [Rule([Oif(UplinkName(c.interfaces))], Drop)]
        + Policies(in_.e, ForwardHook, Deny)
        + AllBindingRules(Markers, bindings, c),
      [], [],
      Policies(in_.e, ForwardHook, Allow))
  }

  function LayersFor(in_: Input, hook: Hook): Layered {
    match hook
    case InputHook => InputLayers(in_)
    case OutputHook => OutputLayers(in_)
    case ForwardHook => ForwardLayers(in_)
  }

  /** The separate ip6 table, which only sees IPv6 packets and drops what it does not accept. */
  function Ip6Rules(hook: Hook): seq<Rule> {
    match hook
    case InputHook => [Rule([Iif("lo")], Accept)]
    case OutputHook => [Rule([Oif("lo")], Accept)]
    case ForwardHook => [INVALID_DROP]
  }

  // ---- The writer ----

  /** Appends one base chain, rule by rule. */
  class Writer {
    var rules: seq<Rule>

    constructor ()
      ensures rules == []
    {
      rules := [];
    }

    method Emit(r: Rule)
      modifies this
      ensures rules == old(rules) + [r]
    {
      rules := rules + [r];
    }

    method EmitInterfaces(kind: InterfaceRuleKind, links: seq<Interface>)
      modifies this
      ensures rules == old(rules) + InterfaceRules(kind, SortedInterfaces(links))
    {
      var sorted := SortedInterfaces(links);
      for k := 0 to |sorted|
        invariant rules == old(rules) + InterfaceRules(kind, sorted)[..k]
      {
        Emit(InterfaceRule(kind, sorted[k]));
      }
    }

    method EmitBindings(kind: BindingRuleKind, c: Config)
      modifies this
      ensures rules == old(rules) + AllBindingRules(kind, ContainerBindings(c), c)
    {
      hide AllBindingRules;
      EmitEachBinding(kind, ContainerBindings(c), c);
    }

    method EmitEachBinding(kind: BindingRuleKind, bindings: seq<Binding>, c: Config)
      modifies this
      ensures rules == old(rules) + AllBindingRules(kind, bindings, c)
    {
      hide BindingRules;
      for k := 0 to |bindings|
        invariant rules == old(rules) + AllBindingRules(kind, bindings[..k], c)
      {
        assert bindings[..k + 1][..k] == bindings[..k];
        Assoc(old(rules), AllBindingRules(kind, bindings[..k], c), BindingRules(kind, bindings[k], c));
        rules := rules + BindingRules(kind, bindings[k], c);
      }
      assert bindings[..|bindings|] == bindings;
    }

    method EmitPolicyRules(p: Policy, s: Service, e: Effective, hook: Hook)
      modifies this
      ensures rules == old(rules) + PolicyRules(p, s, e, hook)
    {
      hide ZoneSelectors, ForwardRules, ForwardRulesFrom, OutputRule, InputRule;
      var dsts := BuildSelectors(p.target, true, e);
      if hook.OutputHook? {
        for k := 0 to |dsts|
          invariant rules == old(rules) + OutputRules(p, s, e, dsts)[..k]
        {
          Emit(OutputRule(p, s, e, dsts[k]));
        }
        return;
      }
      var srcs := BuildSelectors(p.source, false, e);
      if hook.InputHook? {
        for k := 0 to |srcs|
          invariant rules == old(rules) + InputRules(p, s, srcs)[..k]
        {
          Emit(InputRule(p, s, srcs[k]));
        }
      } else {
        EmitForward(p, s, e, srcs, dsts);
      }
    }

    method EmitForward(p: Policy, s: Service, e: Effective, srcs: seq<Selector>, dsts: seq<Selector>)
      modifies this
      ensures rules == old(rules) + ForwardRules(p, s, e, srcs, dsts)
    {
      for k := 0 to |srcs|
        invariant rules == old(rules) + ForwardRules(p, s, e, srcs[..k], dsts)
      {
        hide ForwardRulesFrom;
        assert srcs[..k + 1][..k] == srcs[..k];
        EmitForwardFrom(p, s, e, srcs[k], dsts);
        Assoc(old(rules), ForwardRules(p, s, e, srcs[..k], dsts), ForwardRulesFrom(p, s, e, srcs[k], dsts));
      }
      assert srcs[..|srcs|] == srcs;
    }

    method EmitForwardFrom(p: Policy, s: Service, e: Effective, src: Selector, dsts: seq<Selector>)
      modifies this
      ensures rules == old(rules) + ForwardRulesFrom(p, s, e, src, dsts)
    {
      for k := 0 to |dsts|
        invariant rules == old(rules) + ForwardRulesFrom(p, s, e, src, dsts[..k])
      {
        assert dsts[..k + 1][..k] == dsts[..k];
        if src.family != dsts[k].family {
          continue;
        }
        Emit(ForwardRule(p, s, e, src, dsts[k]));
      }
      assert dsts[..|dsts|] == dsts;
    }

    method EmitPolicies(e: Effective, hook: Hook, action: PolicyAction)
      modifies this
      ensures rules == old(rules) + Policies(e, hook, action)
    {
      hide RulesOfPolicies;
      EmitEachPolicy(SortedPolicies(e.config), e, hook, action);
    }

    method EmitEachPolicy(ps: seq<Policy>, e: Effective, hook: Hook, action: PolicyAction)
      modifies this
      ensures rules == old(rules) + RulesOfPolicies(ps, e, hook, action)
    {
      hide RulesOfPolicy;
      for k := 0 to |ps|
        invariant rules == old(rules) + RulesOfPolicies(ps[..k], e, hook, action)
      {
        assert ps[..k + 1][..k] == ps[..k];
        EmitPolicy(ps[k], e, hook, action);
        Assoc(old(rules), RulesOfPolicies(ps[..k], e, hook, action), RulesOfPolicy(ps[k], e, hook, action));
      }
      assert ps[..|ps|] == ps;
    }

    method EmitPolicy(p: Policy, e: Effective, hook: Hook, action: PolicyAction)
      modifies this
      ensures rules == old(rules) + RulesOfPolicy(p, e, hook, action)
    {
      hide PolicyRules;
      if p.action != action || !AppliesTo(p, hook) {
        return;
      }
      if p.service in e.services {
        EmitPolicyRules(p, e.services[p.service], e, hook);
      }
    }

    method EmitTrusted(in_: Input, protocol: Protocol, transport: Transport)
      modifies this
      ensures rules == old(rules) + TrustedRules(in_, protocol, transport)
    {
      var ports := {};
      for n := 0 to |in_.e.config.trusted|
        invariant rules == old(rules) && ports == TrustedPorts(in_.e, protocol, n)
      {
        var name := in_.e.config.trusted[n];
        if name in in_.e.services && in_.e.services[name].protocol == protocol {
          ports := ports + PortsOf(in_.e.services[name].ports);
        }
      }
      if ports != {} {
        Emit(Rule([SourceSet(Trusted4, in_.leases4), Carries(transport), DstPort(ports)], Accept));
        Emit(Rule([SourceSet(Trusted6, in_.leases6), Carries(transport), DstPort(ports)], Accept));
      }
    }

    method EmitInput(in_: Input)
      requires rules == []
      modifies this
      ensures rules == InputLayers(in_).Rules()
    {
      var c, l := in_.e.config, InputLayers(in_);
      Emit(INVALID_DROP);
      Emit(Rule([Iif("lo")], Accept));
      EmitInterfaces(TagIn, c.interfaces);
      EmitInputAccepts(in_);
      EmitPolicies(in_.e, InputHook, Deny);
      EmitInterfaces(ReplyIn, c.interfaces);
      Emit(Rule([SourceSet(Blocked4, in_.blocked4)], Drop));
      Emit(Rule([SourceSet(Blocked6, in_.blocked6)], Drop));
      EmitPolicies(in_.e, InputHook, Allow);
      Emit(Rule([], Drop));
      hide Policies, InterfaceRules, SortedInterfaces, Only6, TrustedRules;
      Assoc(l.guards + l.early + l.tags + l.accepts + l.denies + l.replies, [l.blocks[0]], [l.blocks[1]]);
      assert [l.blocks[0]] + [l.blocks[1]] == l.blocks;
      assert [] + l.guards == l.guards;
      l.LeftNested();
    }

    method EmitInputAccepts(in_: Input)
      modifies this
      ensures rules == old(rules) + InputLayers(in_).accepts
    {
      var c := in_.e.config;
      if !c.ipv6.Disabled? {
        Emit(NEIGHBOR_DISCOVERY);
      }
      EmitTrusted(in_, Tcp, TcpPacket);
      EmitTrusted(in_, Udp, UdpPacket);
      hide TrustedRules, Policies;
      var a := Only6(c, [NEIGHBOR_DISCOVERY]);
      Assoc(old(rules), a, TrustedRules(in_, Tcp, TcpPacket));
      Assoc(old(rules), a + TrustedRules(in_, Tcp, TcpPacket), TrustedRules(in_, Udp, UdpPacket));
    }

    method EmitOutput(in_: Input)
      requires rules == []
      modifies this
      ensures rules == OutputLayers(in_).Rules()
    {
      var c, l := in_.e.config, OutputLayers(in_);
      Emit(INVALID_DROP);
      EmitInterfaces(TagOut, c.interfaces);
      EmitOutputAccepts(in_);
      EmitOutputDenies(in_);
      EmitPolicies(in_.e, OutputHook, Allow);
      Emit(Rule([], Drop));
      hide Policies, InterfaceRules, SortedInterfaces, AllBindingRules, ContainerBindings, BootstrapRules;
      assert [] + l.guards == l.guards == l.guards + l.early;
      var x := l.guards + l.tags + l.accepts + l.denies;
      assert x + l.replies == x == x + l.blocks;
      l.LeftNested();
    }

    method EmitOutputAccepts(in_: Input)
      modifies this
      ensures rules == old(rules) + OutputLayers(in_).accepts
    {
      var c := in_.e.config;
      Emit(Rule([Oif("lo")], Accept));
      EmitInterfaces(ReplyOut, c.interfaces);
      EmitBindings(PathErrors, c);
      EmitOutputV6(c);
      Emit(DhcpRule(c));
      EmitBootstrap(in_);
      hide Policies, InterfaceRules, SortedInterfaces, AllBindingRules, ContainerBindings, BootstrapRules, Only6;
      var x0, x1 := [Rule([Oif("lo")], Accept)], InterfaceRules(ReplyOut, SortedInterfaces(c.interfaces));
      var x2, x3 := AllBindingRules(PathErrors, ContainerBindings(c), c), Only6(c, [NEIGHBOR_DISCOVERY, DhcpV6Rule(c)]);
      Assoc(old(rules), x0, x1);
      Assoc(old(rules), x0 + x1, x2);
      Assoc(old(rules), x0 + x1 + x2, x3);
      Assoc(old(rules), x0 + x1 + x2 + x3, [DhcpRule(c)]);
      Assoc(old(rules), x0 + x1 + x2 + x3 + [DhcpRule(c)], BootstrapRules(in_));
    }

    method EmitOutputV6(c: Config)
      modifies this
      ensures rules == old(rules) + Only6(c, [NEIGHBOR_DISCOVERY, DhcpV6Rule(c)])
    {
      if !c.ipv6.Disabled? {
        Emit(NEIGHBOR_DISCOVERY);
        Emit(DhcpV6Rule(c));
      }
    }

    method EmitBootstrap(in_: Input)
      modifies this
      ensures rules == old(rules) + BootstrapRules(in_)
    {
      var c := in_.e.config;
      var uplink := UplinkName(c.interfaces);
      if c.endpointPort > 0 {
        Emit(Rule([Oif(uplink), FwMark(c.fwmark), DestinationSet(Bootstrap4, in_.bootstrap4), Carries(UdpPacket), DstPortIs(c.endpointPort)], Accept));
        Emit(Rule([Oif(uplink), FwMark(c.fwmark), DestinationSet(Bootstrap6, in_.bootstrap6), Carries(UdpPacket), DstPortIs(c.endpointPort)], Accept));
      }
    }

    method EmitOutputDenies(in_: Input)
      modifies this
      ensures rules == old(rules) + OutputLayers(in_).denies
    {
      Emit(Rule([DestinationSet(Blocked4, in_.blocked4)], Drop));
      Emit(Rule([DestinationSet(Blocked6, in_.blocked6)], Drop));
      Emit(Rule([Oif(in_.e.config.vpn)], Count));
      EmitPolicies(in_.e, OutputHook, Deny);
      hide Policies, InterfaceRules, SortedInterfaces, AllBindingRules, ContainerBindings, BootstrapRules;
      var three := [Rule([DestinationSet(Blocked4, in_.blocked4)], Drop), Rule([DestinationSet(Blocked6, in_.blocked6)], Drop), Rule([Oif(in_.e.config.vpn)], Count)];
      assert old(rules) + [three[0]] + [three[1]] + [three[2]] == old(rules) + three;
      Assoc(old(rules), three, Policies(in_.e, OutputHook, Deny));
    }

    method EmitForwardChain(in_: Input)
      requires rules == []
      modifies this
      ensures rules == ForwardLayers(in_).Rules()
    {
      var c, l := in_.e.config, ForwardLayers(in_);
      Emit(INVALID_DROP);
      EmitInterfaces(TagIn, c.interfaces);
      EmitInterfaces(ReplyOut, c.interfaces);
      EmitForwardDenies(in_);
      EmitPolicies(in_.e, ForwardHook, Allow);
      Emit(Rule([], Drop));
      hide Policies, InterfaceRules, SortedInterfaces, AllBindingRules, ContainerBindings;
      assert [] + l.guards == l.guards == l.guards + l.early;
      var x := l.guards + l.tags + l.accepts + l.denies;
      assert x + l.replies == x == x + l.blocks;
      l.LeftNested();
    }

    method EmitForwardDenies(in_: Input)
      modifies this
      ensures rules == old(rules) + ForwardLayers(in_).denies
    {
      var c := in_.e.config;
      Emit(Rule([SourceSet(Blocked4, in_.blocked4)], Drop));
      Emit(Rule([DestinationSet(Blocked4, in_.blocked4)], Drop));
      Emit(Rule([SourceSet(Blocked6, in_.blocked6)], Drop));
      Emit(Rule([DestinationSet(Blocked6, in_.blocked6)], Drop));
      EmitBindings(Guards, c);
      Emit(Rule([Oif(UplinkName(c.interfaces))], Drop));
      EmitPolicies(in_.e, ForwardHook, Deny);
      EmitBindings(Markers, c);
      hide Policies, InterfaceRules, SortedInterfaces, AllBindingRules, ContainerBindings;
      var four := [Rule([SourceSet(Blocked4, in_.blocked4)], Drop), Rule([DestinationSet(Blocked4, in_.blocked4)], Drop),
                   Rule([SourceSet(Blocked6, in_.blocked6)], Drop), Rule([DestinationSet(Blocked6, in_.blocked6)], Drop)];
      assert old(rules) + [four[0]] + [four[1]] + [four[2]] + [four[3]] == old(rules) + four;
      var x1, x2 := AllBindingRules(Guards, ContainerBindings(c), c), [Rule([Oif(UplinkName(c.interfaces))], Drop)];
      var x3, x4 := Policies(in_.e, ForwardHook, Deny), AllBindingRules(Markers, ContainerBindings(c), c);
      Assoc(old(rules), four, x1);
      Assoc(old(rules), four + x1, x2);
      Assoc(old(rules), four + x1 + x2, x3);
      Assoc(old(rules), four + x1 + x2 + x3, x4);
    }
  }

  // ---- Selectors, built in loops ----

  method BuildSelectors(name: string, destination: bool, e: Effective) returns (r: seq<Selector>)
    ensures r == ZoneSelectors(name, destination, e)
  {
    if name == "host" {
      return [];
    }
    if name == "any" {
      return BothFamilies([]);
    }
    if name !in e.zones {
      return [];
    }
    var networks := e.zones[name].networks;
    var selectors := [];
    for k := 0 to |networks|
      invariant selectors == NetworkSelectors(networks, destination)[..k]
    {
      var n := networks[k];
      selectors := selectors + [Selector([AddressMatch(n, destination)], FamilyOf(n.address), RequiresVpn(n))];
    }
    assert selectors == NetworkSelectors(networks, destination);
    var links := BuildZoneLinks(e, name);
    if selectors != [] && links != [] {
      r := [];
      for k := 0 to |selectors|
        invariant r == Cross(selectors[..k], links, destination)
      {
        hide CrossOne;
        assert selectors[..k + 1][..k] == selectors[..k];
        r := r + CrossOne(selectors[k], links, destination);
      }
      assert selectors[..|selectors|] == selectors;
    } else if selectors != [] {
      r := selectors;
    } else {
      r := [];
      for k := 0 to |links|
        invariant r == LinkSelectors(links[..k], destination)
      {
        assert links[..k + 1][..k] == links[..k];
        r := r + BothFamilies([LinkMatch(links[k], destination)]);
      }
      assert links[..|links|] == links;
    }
  }

  method BuildZoneLinks(e: Effective, name: string) returns (r: seq<string>)
    requires name in e.zones
    ensures r == ZoneLinks(e, name)
  {
    var all := e.config.interfaces;
    var names := e.zones[name].interfaces;
    for k := 0 to |all|
      invariant names == e.zones[name].interfaces + NamedIn(all[..k], name)
    {
      assert all[..k + 1][..k] == all[..k];
      if all[k].zone == name {
        names := names + [all[k].name];
      }
    }
    assert all[..|all|] == all;
    r := UniqueStrings(names);
  }

  lemma DedupNext(xs: seq<string>, k: nat)
    requires k < |xs|
    ensures Dedup(xs[..k + 1]) == if k > 0 && xs[k] == xs[k - 1] then Dedup(xs[..k]) else Dedup(xs[..k]) + [xs[k]]
  {
    assert xs[..k + 1][..k] == xs[..k];
  }

  method UniqueStrings(xs: seq<string>) returns (r: seq<string>)
    ensures r == Unique(xs)
  {
    var sorted := SortBy(xs, (x: string) => x);
    r := [];
    for k := 0 to |sorted|
      invariant r == Dedup(sorted[..k])
      invariant k > 0 ==> r != [] && r[|r| - 1] == sorted[k - 1]
    {
      hide Dedup;
      DedupNext(sorted, k);
      if r == [] || r[|r| - 1] != sorted[k] {
        r := r + [sorted[k]];
      }
    }
    assert sorted[..|sorted|] == sorted;
  }
}
