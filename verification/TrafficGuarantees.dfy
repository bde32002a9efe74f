/**
 What the compiled chains let through: each chain's exact meaning, the kill switch on the uplink, and
 the life of a connection's mark.
 */
module TrafficGuarantees {
  import opened Texts
  import opened MarkBits
  import opened PolicyModel
  import opened PacketRules
  import opened PolicyCompiler
  import opened PolicyMeaning

  // ---- The vocabulary ----

  predicate Answers(i: Interface, link: string, p: Packet, mark: bv32) {
    && i.name == link && Reserved(mark) == Encoded(i.id)
    && p.direction == Reply && (p.state == Established || p.state == Related)
  }

  /** A reply on the interface whose identity the connection carries. */
  predicate ReplyOn(c: Config, link: string, p: Packet, mark: bv32) {
    exists k :: 0 <= k < |c.interfaces| && Answers(c.interfaces[k], link, p, mark)
  }

  predicate ErrorTo(link: string, prefix: Prefix, p: Packet) {
    && p.oif == link && Contains(prefix, p.destination)
    && if prefix.address.V4? then
         p.transport == IcmpPacket && p.icmpType in {DestinationUnreachable, TimeExceeded, ParameterProblem}
       else
         p.transport == Icmp6Packet && p.icmpType in {DestinationUnreachable, PacketTooBig, TimeExceeded, ParameterProblem}
  }

  /** Some subnet of the container interface is what the packet is to. */
  predicate ErrorInto(i: Interface, p: Packet) {
    i.role.Container? && exists k :: 0 <= k < |i.cidrs| && ErrorTo(i.name, i.cidrs[k], p)
  }

  /** An ICMP error from the host to a container inside its own subnet. */
  predicate PathError(c: Config, p: Packet) {
    exists i :: 0 <= i < |c.interfaces| && ErrorInto(c.interfaces[i], p)
  }

  predicate NeighborDiscovery(c: Config, p: Packet) {
    && !c.ipv6.Disabled? && FamilyOf(p.source) == IPv6 && p.hopLimit == 255 && p.transport == Icmp6Packet
    && p.icmpType in {NeighborSolicit, NeighborAdvert, RouterSolicit, RouterAdvert}
  }

  predicate Dhcp(c: Config, p: Packet) {
    p.oif == UplinkName(c.interfaces) && p.transport == UdpPacket && p.sport == 68 && p.dport == 67
  }

  predicate DhcpV6(c: Config, p: Packet) {
    !c.ipv6.Disabled? && p.oif == UplinkName(c.interfaces) && p.transport == UdpPacket && p.sport == 546 && p.dport == 547
  }

  /** Marked tunnel traffic to a known endpoint and port. */
  predicate Bootstrap(in_: Input, p: Packet) {
    var c := in_.e.config;
    && p.oif == UplinkName(c.interfaces) && p.fwmark == c.fwmark && p.transport == UdpPacket && p.dport == c.endpointPort
    && (InSet(in_.bootstrap4, p.destination) || InSet(in_.bootstrap6, p.destination))
  }

  /** A trusted service of this protocol has the port. */
  predicate TrustedFor(e: Effective, protocol: Protocol, port: int) {
    exists k :: 0 <= k < |e.config.trusted| && Offers(e, e.config.trusted[k], protocol, port)
  }

  predicate Offers(e: Effective, name: string, protocol: Protocol, port: int) {
    name in e.services && e.services[name].protocol == protocol && port in e.services[name].ports
  }

  /** From a leased address to a trusted service. */
  predicate Leased(in_: Input, p: Packet) {
    && (InSet(in_.leases4, p.source) || InSet(in_.leases6, p.source))
    && ((p.transport == TcpPacket && TrustedFor(in_.e, Tcp, p.dport)) || (p.transport == UdpPacket && TrustedFor(in_.e, Udp, p.dport)))
  }

  predicate Blocked(in_: Input, a: Address) {
    InSet(in_.blocked4, a) || InSet(in_.blocked6, a)
  }

  /** The meaning of a base chain. */
  predicate Admits(in_: Input, hook: Hook, p: Packet, mark: bv32) {
    var e := in_.e;
    var c := e.config;
    && p.state != Invalid
    && match hook
       case OutputHook =>
         || p.oif == "lo" || ReplyOn(c, p.oif, p, mark) || PathError(c, p)
         || NeighborDiscovery(c, p) || DhcpV6(c, p) || Dhcp(c, p) || Bootstrap(in_, p)
         || (!Blocked(in_, p.destination) && !Decided(e, hook, Deny, p) && Decided(e, hook, Allow, p))
       case ForwardHook =>
         || ReplyOn(c, p.oif, p, mark)
         || (!Blocked(in_, p.source) && !Blocked(in_, p.destination) && p.oif != UplinkName(c.interfaces)
             && !Decided(e, hook, Deny, p) && Decided(e, hook, Allow, p))
       case InputHook =>
         || p.iif == "lo" || NeighborDiscovery(c, p) || Leased(in_, p)
         || (!Decided(e, hook, Deny, p)
             && (ReplyOn(c, p.iif, p, mark) || (!Blocked(in_, p.source) && Decided(e, hook, Allow, p))))
  }

  // ---- Interface rules ----

  function End(kind: InterfaceRuleKind, p: Packet): string {
    if kind.TagIn? || kind.ReplyIn? then p.iif else p.oif
  }

  lemma ReplyRuleExact(kind: InterfaceRuleKind, i: Interface, p: Packet, mark: bv32)
    requires kind.ReplyIn? || kind.ReplyOut?
    ensures Fires(InterfaceRule(kind, i), Accept, p, mark) <==> Answers(i, End(kind, p), p, mark)
  {
    hide Reserved, Encoded;
    var ms := InterfaceRule(kind, i).matches;
    assert |ms| == 4;
    assert AllHold(ms, p, mark) <==> Holds(ms[0], p, mark) && Holds(ms[1], p, mark) && Holds(ms[2], p, mark) && Holds(ms[3], p, mark);
  }

  lemma RepliesExact(kind: InterfaceRuleKind, c: Config, p: Packet, mark: bv32)
    requires kind.ReplyIn? || kind.ReplyOut?
    ensures Uniform(InterfaceRules(kind, SortedInterfaces(c.interfaces)), Accept)
    ensures Hit(InterfaceRules(kind, SortedInterfaces(c.interfaces)), Accept, p, mark) <==> ReplyOn(c, End(kind, p), p, mark)
  {
    var links := SortedInterfaces(c.interfaces);
    var rules := InterfaceRules(kind, links);
    forall k | 0 <= k < |links| ensures Fires(rules[k], Accept, p, mark) <==> Answers(links[k], End(kind, p), p, mark) {
      ReplyRuleExact(kind, links[k], p, mark);
    }
    SortedSame(c.interfaces);
    hide Fires, Answers, SortedInterfaces, InterfaceRule;
    if Hit(rules, Accept, p, mark) {
      var k :| 0 <= k < |rules| && Fires(rules[k], Accept, p, mark);
      assert links[k] in c.interfaces;
    }
    if ReplyOn(c, End(kind, p), p, mark) {
      var k :| 0 <= k < |c.interfaces| && Answers(c.interfaces[k], End(kind, p), p, mark);
      assert c.interfaces[k] in links;
    }
  }

  lemma TagRulesTag(kind: InterfaceRuleKind, c: Config)
    requires kind.TagIn? || kind.TagOut?
    requires Validated(c)
    ensures var rules := InterfaceRules(kind, SortedInterfaces(c.interfaces));
      TagsOnce(rules) && forall k :: 0 <= k < |rules| ==> rules[k].effect.Tag?
  {
    var links := SortedInterfaces(c.interfaces);
    var rules := InterfaceRules(kind, links);
    SortedSame(c.interfaces);
    hide SortedInterfaces;
    forall k | 0 <= k < |rules|
      ensures rules[k].effect.Tag? && rules[k].effect.id != 0
      ensures Directed(Original) in rules[k].matches && MarkByte(0) in rules[k].matches
    {
      IdsAreOneToOne(c, links[k], links[k]);
      assert rules[k] == InterfaceRule(kind, links[k]);
      assert rules[k].matches[1] == Directed(Original) && rules[k].matches[2] == MarkByte(0);
    }
  }

  /** Tags leave replies alone. */
  lemma TagsSpareReplies(kind: InterfaceRuleKind, c: Config, link: string, p: Packet, mark: bv32)
    requires (kind.TagIn? || kind.TagOut?) && Validated(c)
    ensures var m := Evaluate(InterfaceRules(kind, SortedInterfaces(c.interfaces)), p, mark).mark;
      ReplyOn(c, link, p, m) <==> ReplyOn(c, link, p, mark)
  {
    TagRulesTag(kind, c);
    MarkIsTaggedOnce(InterfaceRules(kind, SortedInterfaces(c.interfaces)), p, mark);
    if p.direction != Reply {
      assert !ReplyOn(c, link, p, mark);
    }
  }

  // ---- Binding rules ----

  lemma {:induction false} BindingRulesHit(kind: BindingRuleKind, bs: seq<Binding>, c: Config, f: Effect, p: Packet, mark: bv32)
    ensures Hit(AllBindingRules(kind, bs, c), f, p, mark) <==>
      exists k :: 0 <= k < |bs| && Hit(BindingRules(kind, bs[k], c), f, p, mark)
    ensures Uniform(AllBindingRules(kind, bs, c), if kind.PathErrors? then Accept else Drop)
  {
    if bs != [] {
      var before := bs[..|bs| - 1];
      BindingRulesHit(kind, before, c, f, p, mark);
      HitAppend(AllBindingRules(kind, before, c), BindingRules(kind, bs[|bs| - 1], c), f, p, mark);
      HitAppend(AllBindingRules(kind, before, c), BindingRules(kind, bs[|bs| - 1], c), if kind.PathErrors? then Accept else Drop, p, mark);
      assert forall k :: 0 <= k < |before| ==> before[k] == bs[k];
      BindingUniform(kind, bs[|bs| - 1], c);
      hide Hit, Uniform, BindingRules;
    } else {
      assert !Hit([], f, p, mark);
    }
  }

  lemma BindingUniform(kind: BindingRuleKind, b: Binding, c: Config)
    ensures Uniform(BindingRules(kind, b, c), if kind.PathErrors? then Accept else Drop)
  {
  }

  lemma ErrorRuleExact(b: Binding, c: Config, p: Packet, mark: bv32)
    ensures Hit(BindingRules(PathErrors, b, c), Accept, p, mark) <==> ErrorTo(b.link, b.prefix, p)
  {
    hide Contains, Reserved;
    var rules := BindingRules(PathErrors, b, c);
    HitOne(rules[0], Accept, p, mark);
    assert rules == [rules[0]];
    var ms := rules[0].matches;
    assert AllHold(ms, p, mark) <==> Holds(ms[0], p, mark) && Holds(ms[1], p, mark) && Holds(ms[2], p, mark) && Holds(ms[3], p, mark);
  }

  /** Link i has this binding for its k-th subnet. */
  predicate BindsAt(links: seq<Interface>, i: nat, k: nat, b: Binding) {
    && i < |links| && links[i].role.Container? && k < |links[i].cidrs|
    && b == Binding(links[i].name, Masked(links[i].cidrs[k]))
  }

  /** The bindings are exactly the masked subnets of the container interfaces. */
  lemma {:induction false} BindingsMean(links: seq<Interface>, b: Binding)
    ensures b in BindingsIn(links) <==> exists i: nat, k: nat :: BindsAt(links, i, k, b)
  {
    hide Masked;
    if links != [] {
      var before, n := links[..|links| - 1], |links| - 1;
      BindingsMean(before, b);
      var last := if links[n].role.Container? then CidrBindings(links[n].name, links[n].cidrs) else [];
      assert BindingsIn(links) == BindingsIn(before) + last;
      if i: nat, k: nat :| BindsAt(before, i, k, b) {
        assert BindsAt(links, i, k, b);
      }
      if i: nat, k: nat :| BindsAt(links, i, k, b) {
        assert i < n ==> BindsAt(before, i, k, b);
        assert i == n ==> last[k] == b;
      }
      if b in last {
        var k :| 0 <= k < |last| && last[k] == b;
        assert BindsAt(links, n, k, b);
      }
    }
  }

  lemma BoundMeans(c: Config, b: Binding)
    ensures b in ContainerBindings(c) <==> exists i: nat, k: nat :: BindsAt(c.interfaces, i, k, b)
  {
    BindingsMean(c.interfaces, b);
    SortMembers(BindingsIn(c.interfaces), (b: Binding) => b.link);
  }

  lemma MaskedError(link: string, prefix: Prefix, p: Packet)
    ensures ErrorTo(link, Masked(prefix), p) <==> ErrorTo(link, prefix, p)
  {
    MaskedContains(prefix, p.destination);
    assert Masked(prefix).address.V4? <==> prefix.address.V4?;
    hide Contains, Masked;
  }

  lemma PathErrorsExact(c: Config, p: Packet, mark: bv32)
    ensures Uniform(AllBindingRules(PathErrors, ContainerBindings(c), c), Accept)
    ensures Hit(AllBindingRules(PathErrors, ContainerBindings(c), c), Accept, p, mark) <==> PathError(c, p)
  {
    var bs := ContainerBindings(c);
    hide ContainerBindings, ErrorTo, BindingRules, Hit, Masked;
    BindingRulesHit(PathErrors, bs, c, Accept, p, mark);
    forall k | 0 <= k < |bs| ensures Hit(BindingRules(PathErrors, bs[k], c), Accept, p, mark) <==> ErrorTo(bs[k].link, bs[k].prefix, p) {
      ErrorRuleExact(bs[k], c, p, mark);
    }
    if k :| 0 <= k < |bs| && ErrorTo(bs[k].link, bs[k].prefix, p) {
      BoundMeans(c, bs[k]);
      var i: nat, j: nat :| BindsAt(c.interfaces, i, j, bs[k]);
      MaskedError(bs[k].link, c.interfaces[i].cidrs[j], p);
      assert ErrorInto(c.interfaces[i], p);
    }
    if i :| 0 <= i < |c.interfaces| && ErrorInto(c.interfaces[i], p) {
      var l := c.interfaces[i];
      var j :| 0 <= j < |l.cidrs| && ErrorTo(l.name, l.cidrs[j], p);
      var b := Binding(l.name, Masked(l.cidrs[j]));
      assert BindsAt(c.interfaces, i, j, b);
      BoundMeans(c, b);
      MaskedError(l.name, l.cidrs[j], p);
      var k :| 0 <= k < |bs| && bs[k] == b;
      assert ErrorTo(bs[k].link, bs[k].prefix, p);
    }
  }

  /** The container guards drop nothing that is not bound for the uplink. */
  lemma GuardsOnlyUplink(c: Config, p: Packet, mark: bv32)
    ensures Uniform(AllBindingRules(Guards, ContainerBindings(c), c), Drop)
    ensures Hit(AllBindingRules(Guards, ContainerBindings(c), c), Drop, p, mark) ==> p.oif == UplinkName(c.interfaces)
  {
    var bs := ContainerBindings(c);
    BindingRulesHit(Guards, bs, c, Drop, p, mark);
    forall k | 0 <= k < |bs| && Hit(BindingRules(Guards, bs[k], c), Drop, p, mark) ensures p.oif == UplinkName(c.interfaces) {
      var rules := BindingRules(Guards, bs[k], c);
      var j :| 0 <= j < |rules| && Fires(rules[j], Drop, p, mark);
      assert j == 2 && Holds(rules[2].matches[2], p, mark);
    }
  }

  lemma MarkersCount(c: Config, p: Packet, mark: bv32)
    ensures Uniform(AllBindingRules(Markers, ContainerBindings(c), c), Drop)
    ensures !Hit(AllBindingRules(Markers, ContainerBindings(c), c), Drop, p, mark)
  {
    var bs := ContainerBindings(c);
    BindingRulesHit(Markers, bs, c, Drop, p, mark);
    forall k | 0 <= k < |bs| ensures !Hit(BindingRules(Markers, bs[k], c), Drop, p, mark) {
      HitOne(BindingRules(Markers, bs[k], c)[0], Drop, p, mark);
    }
  }

  // ---- Single rules ----

  lemma OneMatch(m: Match, f: Effect, p: Packet, mark: bv32)
    ensures Hit([Rule([m], f)], f, p, mark) <==> Holds(m, p, mark)
  {
    HitOne(Rule([m], f), f, p, mark);
    HoldOne(m, p, mark);
  }

  lemma HitPair(a: Rule, b: Rule, f: Effect, p: Packet, mark: bv32)
    ensures Hit([a, b], f, p, mark) <==> Fires(a, f, p, mark) || Fires(b, f, p, mark)
    ensures Uniform([a, b], f) <==> (a.effect == f || Passive(a.effect)) && (b.effect == f || Passive(b.effect))
  {
    hide Fires;
    assert [a, b][0] == a && [a, b][1] == b;
  }

  lemma NeighborExact(c: Config, p: Packet, mark: bv32)
    ensures Hit(Only6(c, [NEIGHBOR_DISCOVERY]), Accept, p, mark) <==> NeighborDiscovery(c, p)
  {
    HitOne(NEIGHBOR_DISCOVERY, Accept, p, mark);
    var ms := NEIGHBOR_DISCOVERY.matches;
    assert AllHold(ms, p, mark) <==> Holds(ms[0], p, mark) && Holds(ms[1], p, mark) && Holds(ms[2], p, mark);
  }

  lemma DhcpV6Exact(c: Config, p: Packet, mark: bv32)
    ensures Hit(Only6(c, [DhcpV6Rule(c)]), Accept, p, mark) <==> DhcpV6(c, p)
    ensures Hit([DhcpRule(c)], Accept, p, mark) <==> Dhcp(c, p)
  {
    HitOne(DhcpV6Rule(c), Accept, p, mark);
    HitOne(DhcpRule(c), Accept, p, mark);
    FourHold(DhcpV6Rule(c).matches, p, mark);
    FourHold(DhcpRule(c).matches, p, mark);
  }

  lemma FourHold(ms: seq<Match>, p: Packet, mark: bv32)
    requires |ms| == 4
    ensures AllHold(ms, p, mark) <==> Holds(ms[0], p, mark) && Holds(ms[1], p, mark) && Holds(ms[2], p, mark) && Holds(ms[3], p, mark)
  {
  }

  lemma FiveHold(ms: seq<Match>, p: Packet, mark: bv32)
    requires |ms| == 5
    ensures AllHold(ms, p, mark) <==>
      Holds(ms[0], p, mark) && Holds(ms[1], p, mark) && Holds(ms[2], p, mark) && Holds(ms[3], p, mark) && Holds(ms[4], p, mark)
  {
  }

  lemma BootstrapExact(in_: Input, p: Packet, mark: bv32)
    requires in_.e.config.endpointPort > 0
    ensures Uniform(BootstrapRules(in_), Accept)
    ensures Hit(BootstrapRules(in_), Accept, p, mark) <==> Bootstrap(in_, p)
  {
    hide InSet, UplinkName;
    var rules := BootstrapRules(in_);
    assert rules == [rules[0], rules[1]];
    HitPair(rules[0], rules[1], Accept, p, mark);
    FiveHold(rules[0].matches, p, mark);
    FiveHold(rules[1].matches, p, mark);
  }

  lemma {:induction false} TrustedPortsMean(e: Effective, protocol: Protocol, n: nat, port: int)
    requires n <= |e.config.trusted|
    ensures port in TrustedPorts(e, protocol, n) <==> exists k :: 0 <= k < n && Offers(e, e.config.trusted[k], protocol, port)
  {
    if n > 0 {
      TrustedPortsMean(e, protocol, n - 1, port);
    }
  }

  lemma TrustedRulesExact(in_: Input, protocol: Protocol, transport: Transport, p: Packet, mark: bv32)
    ensures Uniform(TrustedRules(in_, protocol, transport), Accept)
    ensures Hit(TrustedRules(in_, protocol, transport), Accept, p, mark) <==>
      && (InSet(in_.leases4, p.source) || InSet(in_.leases6, p.source))
      && p.transport == transport && p.dport in TrustedPorts(in_.e, protocol, |in_.e.config.trusted|)
  {
    hide InSet, TrustedPorts;
    var rules := TrustedRules(in_, protocol, transport);
    if rules != [] {
      assert rules == [rules[0], rules[1]];
      HitPair(rules[0], rules[1], Accept, p, mark);
      ThreeHold(rules[0].matches, p, mark);
      ThreeHold(rules[1].matches, p, mark);
    } else {
      assert !Hit([], Accept, p, mark);
    }
  }

  lemma TrustedExact(in_: Input, protocol: Protocol, transport: Transport, p: Packet, mark: bv32)
    ensures Uniform(TrustedRules(in_, protocol, transport), Accept)
    ensures Hit(TrustedRules(in_, protocol, transport), Accept, p, mark) <==>
      && (InSet(in_.leases4, p.source) || InSet(in_.leases6, p.source))
      && p.transport == transport && TrustedFor(in_.e, protocol, p.dport)
  {
    hide InSet, TrustedPorts, Offers, TrustedRules, Uniform, Hit;
    TrustedRulesExact(in_, protocol, transport, p, mark);
    TrustedPortsMean(in_.e, protocol, |in_.e.config.trusted|, p.dport);
  }

  lemma ThreeHold(ms: seq<Match>, p: Packet, mark: bv32)
    requires |ms| == 3
    ensures AllHold(ms, p, mark) <==> Holds(ms[0], p, mark) && Holds(ms[1], p, mark) && Holds(ms[2], p, mark)
  {
  }

  lemma PairOfMatches(a: Match, b: Match, f: Effect, p: Packet, mark: bv32)
    ensures Hit([Rule([a], f), Rule([b], f)], f, p, mark) <==> Holds(a, p, mark) || Holds(b, p, mark)
    ensures Uniform([Rule([a], f), Rule([b], f)], f)
  {
    HitPair(Rule([a], f), Rule([b], f), f, p, mark);
    HoldOne(a, p, mark);
    HoldOne(b, p, mark);
  }

  // ---- Each chain is exact ----

  lemma GuardsExact(p: Packet, mark: bv32)
    ensures Uniform([INVALID_DROP], Drop)
    ensures Hit([INVALID_DROP], Drop, p, mark) <==> p.state == Invalid
  {
    OneMatch(InState({Invalid}), Drop, p, mark);
  }

  lemma OutputAcceptsExact(in_: Input, p: Packet, mark: bv32)
    requires in_.e.config.endpointPort > 0
    ensures Uniform(OutputLayers(in_).accepts, Accept)
    ensures var c := in_.e.config;
      Hit(OutputLayers(in_).accepts, Accept, p, mark) <==>
        || p.oif == "lo" || ReplyOn(c, p.oif, p, mark) || PathError(c, p)
        || NeighborDiscovery(c, p) || DhcpV6(c, p) || Dhcp(c, p) || Bootstrap(in_, p)
  {
    var c := in_.e.config;
    OneMatch(Oif("lo"), Accept, p, mark);
    RepliesExact(ReplyOut, c, p, mark);
    PathErrorsExact(c, p, mark);
    NeighborExact(c, p, mark);
    DhcpV6Exact(c, p, mark);
    BootstrapExact(in_, p, mark);
    var x0, x1 := [Rule([Oif("lo")], Accept)], InterfaceRules(ReplyOut, SortedInterfaces(c.interfaces));
    var x2, x3 := AllBindingRules(PathErrors, ContainerBindings(c), c), Only6(c, [NEIGHBOR_DISCOVERY, DhcpV6Rule(c)]);
    assert x3 == Only6(c, [NEIGHBOR_DISCOVERY]) + Only6(c, [DhcpV6Rule(c)]);
    HitAppend(Only6(c, [NEIGHBOR_DISCOVERY]), Only6(c, [DhcpV6Rule(c)]), Accept, p, mark);
    SmallUniform(c);
    hide InterfaceRules, SortedInterfaces, AllBindingRules, ContainerBindings, BootstrapRules, Hit, Uniform, Policies;
    hide ReplyOn, PathError, NeighborDiscovery, DhcpV6, Dhcp, Bootstrap, Only6;
    HitAppend(x0, x1, Accept, p, mark);
    HitAppend(x0 + x1, x2, Accept, p, mark);
    HitAppend(x0 + x1 + x2, x3, Accept, p, mark);
    HitAppend(x0 + x1 + x2 + x3, [DhcpRule(c)], Accept, p, mark);
    HitAppend(x0 + x1 + x2 + x3 + [DhcpRule(c)], BootstrapRules(in_), Accept, p, mark);
  }

  lemma SmallUniform(c: Config)
    ensures Uniform(Only6(c, [NEIGHBOR_DISCOVERY]), Accept) && Uniform(Only6(c, [DhcpV6Rule(c)]), Accept)
    ensures Uniform([DhcpRule(c)], Accept) && Uniform([Rule([Oif("lo")], Accept)], Accept) && Uniform([Rule([Iif("lo")], Accept)], Accept)
  {
  }

  lemma OutputDeniesExact(in_: Input, p: Packet, mark: bv32)
    ensures Uniform(OutputLayers(in_).denies, Drop)
    ensures Hit(OutputLayers(in_).denies, Drop, p, mark) <==>
      Blocked(in_, p.destination) || Decided(in_.e, OutputHook, Deny, p)
  {
    var two := [Rule([DestinationSet(Blocked4, in_.blocked4)], Drop), Rule([DestinationSet(Blocked6, in_.blocked6)], Drop)];
    var counter := Rule([Oif(in_.e.config.vpn)], Count);
    PairOfMatches(DestinationSet(Blocked4, in_.blocked4), DestinationSet(Blocked6, in_.blocked6), Drop, p, mark);
    HitOne(counter, Drop, p, mark);
    EmittedPoliciesExact(in_.e, OutputHook, Deny, p, mark);
    assert Uniform([counter], Drop);
    assert Blocked(in_, p.destination) <==> Hit(two, Drop, p, mark);
    hide Hit, Uniform, Blocked, Decided, Policies, InterfaceRules, SortedInterfaces, AllBindingRules, ContainerBindings, BootstrapRules, Only6, Fires;
    HitAppend(two, [counter], Drop, p, mark);
    assert two + [counter] == [two[0], two[1], counter];
    assert OutputLayers(in_).denies == two + [counter] + Policies(in_.e, OutputHook, Deny);
    HitAppend(two + [counter], Policies(in_.e, OutputHook, Deny), Drop, p, mark);
  }

  function ForwardBlocks(in_: Input): seq<Rule> {
    [Rule([SourceSet(Blocked4, in_.blocked4)], Drop), Rule([DestinationSet(Blocked4, in_.blocked4)], Drop),
     Rule([SourceSet(Blocked6, in_.blocked6)], Drop), Rule([DestinationSet(Blocked6, in_.blocked6)], Drop)]
  }

  lemma ForwardBlocksExact(in_: Input, p: Packet, mark: bv32)
    ensures Uniform(ForwardBlocks(in_), Drop)
    ensures Hit(ForwardBlocks(in_), Drop, p, mark) <==> Blocked(in_, p.source) || Blocked(in_, p.destination)
  {
    var four := ForwardBlocks(in_);
    PairOfMatches(SourceSet(Blocked4, in_.blocked4), DestinationSet(Blocked4, in_.blocked4), Drop, p, mark);
    PairOfMatches(SourceSet(Blocked6, in_.blocked6), DestinationSet(Blocked6, in_.blocked6), Drop, p, mark);
    hide Hit, Uniform, InSet;
    HitAppend([four[0], four[1]], [four[2], four[3]], Drop, p, mark);
    assert four == [four[0], four[1]] + [four[2], four[3]];
  }

  lemma SourceBlocksExact(in_: Input, p: Packet, mark: bv32)
    ensures var two := [Rule([SourceSet(Blocked4, in_.blocked4)], Drop), Rule([SourceSet(Blocked6, in_.blocked6)], Drop)];
      Uniform(two, Drop) && (Hit(two, Drop, p, mark) <==> Blocked(in_, p.source))
  {
    PairOfMatches(SourceSet(Blocked4, in_.blocked4), SourceSet(Blocked6, in_.blocked6), Drop, p, mark);
  }

  lemma ForwardDeniesExact(in_: Input, p: Packet, mark: bv32)
    ensures Uniform(ForwardLayers(in_).denies, Drop)
    ensures Hit(ForwardLayers(in_).denies, Drop, p, mark) <==>
      || Blocked(in_, p.source) || Blocked(in_, p.destination)
      || p.oif == UplinkName(in_.e.config.interfaces) || Decided(in_.e, ForwardHook, Deny, p)
  {
    var c := in_.e.config;
    ForwardBlocksExact(in_, p, mark);
    OneMatch(Oif(UplinkName(c.interfaces)), Drop, p, mark);
    GuardsOnlyUplink(c, p, mark);
    MarkersCount(c, p, mark);
    EmittedPoliciesExact(in_.e, ForwardHook, Deny, p, mark);
    var x1, x2 := AllBindingRules(Guards, ContainerBindings(c), c), [Rule([Oif(UplinkName(c.interfaces))], Drop)];
    var x3, x4 := Policies(in_.e, ForwardHook, Deny), AllBindingRules(Markers, ContainerBindings(c), c);
    assert Uniform(x2, Drop);
    hide AllBindingRules, ContainerBindings, Policies, Hit, Uniform, Decided, Blocked, UplinkName, InterfaceRules, SortedInterfaces;
    var x0 := ForwardBlocks(in_);
    assert ForwardLayers(in_).denies == x0 + x1 + x2 + x3 + x4;
    HitAppend(x0, x1, Drop, p, mark);
    HitAppend(x0 + x1, x2, Drop, p, mark);
    HitAppend(x0 + x1 + x2, x3, Drop, p, mark);
    HitAppend(x0 + x1 + x2 + x3, x4, Drop, p, mark);
  }

  lemma InputAcceptsExact(in_: Input, p: Packet, mark: bv32)
    ensures Uniform(InputLayers(in_).accepts, Accept)
    ensures Hit(InputLayers(in_).accepts, Accept, p, mark) <==> NeighborDiscovery(in_.e.config, p) || Leased(in_, p)
  {
    var c := in_.e.config;
    NeighborExact(c, p, mark);
    TrustedExact(in_, Tcp, TcpPacket, p, mark);
    TrustedExact(in_, Udp, UdpPacket, p, mark);
    SmallUniform(c);
    hide TrustedRules, Hit, Uniform, Only6, InSet, TrustedFor, Policies;
    HitAppend(Only6(c, [NEIGHBOR_DISCOVERY]), TrustedRules(in_, Tcp, TcpPacket), Accept, p, mark);
    HitAppend(Only6(c, [NEIGHBOR_DISCOVERY]) + TrustedRules(in_, Tcp, TcpPacket), TrustedRules(in_, Udp, UdpPacket), Accept, p, mark);
  }

  lemma NothingHits(f: Effect, p: Packet, mark: bv32)
    ensures Uniform([], f) && !Hit([], f, p, mark)
  {
  }

  lemma OutputIsExact(in_: Input, p: Packet, mark: bv32)
    requires Faithful(in_.e)
    ensures Evaluate(OutputLayers(in_).Rules(), p, mark).decision == if Admits(in_, OutputHook, p, mark) then Accepted else Dropped
  {
    var l, c := OutputLayers(in_), in_.e.config;
    GuardsExact(p, mark);
    NothingHits(Accept, p, mark);
    TagRulesTag(TagOut, c);
    TagsSpareReplies(TagOut, c, p.oif, p, mark);
    var m := Evaluate(l.tags, p, mark).mark;
    NothingHits(Accept, p, m);
    NothingHits(Drop, p, m);
    OutputAcceptsExact(in_, p, m);
    OutputDeniesExact(in_, p, m);
    EmittedPoliciesExact(in_.e, OutputHook, Allow, p, m);
    hide Hit, Uniform, ReplyOn, PathError, NeighborDiscovery, DhcpV6, Dhcp, Bootstrap, Blocked, Decided, Policies,
      InterfaceRules, SortedInterfaces, Evaluate, Faithful, AllBindingRules, ContainerBindings, BootstrapRules, Only6;
    l.VerdictIsExact(p, mark);
  }

  lemma ForwardIsExact(in_: Input, p: Packet, mark: bv32)
    requires Faithful(in_.e)
    ensures Evaluate(ForwardLayers(in_).Rules(), p, mark).decision == if Admits(in_, ForwardHook, p, mark) then Accepted else Dropped
  {
    var l, c := ForwardLayers(in_), in_.e.config;
    GuardsExact(p, mark);
    NothingHits(Accept, p, mark);
    TagRulesTag(TagIn, c);
    TagsSpareReplies(TagIn, c, p.oif, p, mark);
    var m := Evaluate(l.tags, p, mark).mark;
    NothingHits(Accept, p, m);
    NothingHits(Drop, p, m);
    RepliesExact(ReplyOut, c, p, m);
    ForwardDeniesExact(in_, p, m);
    EmittedPoliciesExact(in_.e, ForwardHook, Allow, p, m);
    hide Hit, Uniform, ReplyOn, Blocked, Decided, Policies, InterfaceRules, SortedInterfaces, Evaluate;
    l.VerdictIsExact(p, mark);
  }

  lemma InputIsExact(in_: Input, p: Packet, mark: bv32)
    requires Faithful(in_.e)
    ensures Evaluate(InputLayers(in_).Rules(), p, mark).decision == if Admits(in_, InputHook, p, mark) then Accepted else Dropped
  {
    var l, c := InputLayers(in_), in_.e.config;
    GuardsExact(p, mark);
    OneMatch(Iif("lo"), Accept, p, mark);
    SmallUniform(c);
    TagRulesTag(TagIn, c);
    TagsSpareReplies(TagIn, c, p.iif, p, mark);
    var m := Evaluate(l.tags, p, mark).mark;
    InputAcceptsExact(in_, p, m);
    EmittedPoliciesExact(in_.e, InputHook, Deny, p, m);
    RepliesExact(ReplyIn, c, p, m);
    SourceBlocksExact(in_, p, m);
    EmittedPoliciesExact(in_.e, InputHook, Allow, p, m);
    hide Hit, Uniform, ReplyOn, NeighborDiscovery, Leased, Blocked, Decided, Policies, InterfaceRules, SortedInterfaces, Evaluate;
    hide TrustedRules, Only6;
    l.VerdictIsExact(p, mark);
  }

  /** For every faithful policy, every hook, every packet and every mark: the chain means what it says. */
  lemma ChainsAreExact(in_: Input, hook: Hook, p: Packet, mark: bv32)
    requires Faithful(in_.e)
    ensures Evaluate(LayersFor(in_, hook).Rules(), p, mark).decision == if Admits(in_, hook, p, mark) then Accepted else Dropped
  {
    match hook
    case InputHook => InputIsExact(in_, p, mark);
    case OutputHook => OutputIsExact(in_, p, mark);
    case ForwardHook => ForwardIsExact(in_, p, mark);
  }

  // ---- The kill switch ----

  /** Accepted by the inet chain and, with IPv6 off, for IPv6 packets by the ip6 chain as well. */
  predicate Passes(in_: Input, hook: Hook, p: Packet, mark: bv32) {
    && (in_.e.config.ipv6.Disabled? && FamilyOf(p.source) == IPv6 ==> Evaluate(Ip6Rules(hook), p, mark).decision.Accepted?)
    && Evaluate(LayersFor(in_, hook).Rules(), p, mark).decision.Accepted?
  }

  /** An allow policy from the host to a zone with no interface and a network that needs no tunnel. */
  predicate LocalPolicy(e: Effective, q: Policy, p: Packet) {
    && q.action.Allow? && (q.source == "host" || q.source == "any")
    && q.service in e.services && ServiceCovers(e.services[q.service], p)
    && q.target in e.zones && !HasLinks(e, q.target)
    && InNetworks(e.zones[q.target].networks, p.destination, false)
  }

  predicate LocallyAllowed(e: Effective, p: Packet) {
    exists k :: 0 <= k < |e.config.policies| && LocalPolicy(e, e.config.policies[k], p)
  }

  lemma UplinkFacts(c: Config) returns (uplink: Interface)
    requires Validated(c)
    ensures uplink in c.interfaces && uplink.role.Uplink? && uplink.name == UplinkName(c.interfaces)
    ensures c.vpn != uplink.name
  {
    UplinkIsDeclared(c.interfaces);
    var i :| 0 <= i < |c.interfaces| && c.interfaces[i].role.Uplink? && c.interfaces[i].name == UplinkName(c.interfaces);
    uplink := c.interfaces[i];
    var j :| 0 <= j < |c.interfaces| && c.interfaces[j].name == c.vpn && c.interfaces[j].role.Vpn?;
    IdsAreOneToOne(c, uplink, c.interfaces[j]);
  }

  lemma NoPathErrorOnUplink(c: Config, p: Packet)
    requires Validated(c) && p.oif == UplinkName(c.interfaces)
    ensures !PathError(c, p)
  {
    var uplink := UplinkFacts(c);
    if i :| 0 <= i < |c.interfaces| && ErrorInto(c.interfaces[i], p) {
      IdsAreOneToOne(c, uplink, c.interfaces[i]);
    }
  }

  /** On the uplink an allow policy means a network-only zone and a network that needs no tunnel. */
  lemma AllowedOnUplink(e: Effective, p: Packet)
    requires Faithful(e) && p.oif == UplinkName(e.config.interfaces) && Decided(e, OutputHook, Allow, p)
    ensures LocallyAllowed(e, p)
  {
    var c := e.config;
    var uplink := UplinkFacts(c);
    var k :| 0 <= k < |c.policies| && DecidedBy(c.policies[k], e, OutputHook, Allow, p);
    var q := c.policies[k];
    assert PolicyOk(c, q);
    assert q.target in e.zones;
    hide Faithful, Validated, PolicyOk, InZone;
    if HasLinks(e, q.target) {
      assert LinkInZone(e, q.target, p.oif);
      LinkReaches(e, q.target, uplink);
    }
    assert LocalPolicy(e, q, p);
  }

  lemma LinkReaches(e: Effective, zone: string, uplink: Interface)
    requires Faithful(e) && zone in e.zones && LinkInZone(e, zone, uplink.name)
    requires uplink in e.config.interfaces && uplink.role.Uplink?
    ensures ReachesUplink(e.config, zone)
  {
    var c := e.config;
    var u :| 0 <= u < |c.interfaces| && c.interfaces[u] == uplink;
    if uplink.name in e.zones[zone].interfaces {
      var k :| 0 <= k < |c.zones| && c.zones[k] == e.zones[zone];
      assert InZone(c, c.interfaces[u], zone);
    } else {
      var i :| 0 <= i < |c.interfaces| && c.interfaces[i].zone == zone && c.interfaces[i].name == uplink.name;
      IdsAreOneToOne(c, c.interfaces[i], uplink);
      assert InZone(c, c.interfaces[u], zone);
    }
  }

  lemma Ip6OnlyLoopback(hook: Hook, p: Packet, mark: bv32)
    ensures Evaluate(Ip6Rules(hook), p, mark).decision.Accepted? <==>
      (hook.InputHook? && p.iif == "lo") || (hook.OutputHook? && p.oif == "lo")
  {
    var r := Ip6Rules(hook)[0];
    assert AllHold(r.matches, p, mark) <==> Holds(r.matches[0], p, mark);
    assert Ip6Rules(hook)[1..] == [];
  }

  /**
   The kill switch. Whatever the output chain lets out on the uplink is a reply on a connection that
   carries the uplink's identity, address configuration, marked tunnel traffic to a bootstrap endpoint,
   or allowed to a network whose written address is private, link-local or loopback.
   */
  lemma KillSwitch(in_: Input, p: Packet, mark: bv32)
    requires Faithful(in_.e) && Passes(in_, OutputHook, p, mark)
    requires p.oif == UplinkName(in_.e.config.interfaces) && p.oif != "lo"
    ensures var c := in_.e.config;
      || ReplyOn(c, p.oif, p, mark)
      || Dhcp(c, p)
      || (!c.ipv6.Disabled? && (NeighborDiscovery(c, p) || DhcpV6(c, p)))
      || Bootstrap(in_, p)
      || LocallyAllowed(in_.e, p)
    ensures in_.e.config.ipv6.Disabled? ==> FamilyOf(p.source) == IPv4
  {
    ChainsAreExact(in_, OutputHook, p, mark);
    NoPathErrorOnUplink(in_.e.config, p);
    Ip6OnlyLoopback(OutputHook, p, mark);
    if Decided(in_.e, OutputHook, Allow, p) {
      AllowedOnUplink(in_.e, p);
    }
  }

  /** Nothing is forwarded onto the uplink but replies carrying its identity; IPv6 not at all when off. */
  lemma ForwardKillSwitch(in_: Input, p: Packet, mark: bv32)
    requires Faithful(in_.e) && Passes(in_, ForwardHook, p, mark)
    ensures p.oif == UplinkName(in_.e.config.interfaces) ==> ReplyOn(in_.e.config, p.oif, p, mark)
    ensures in_.e.config.ipv6.Disabled? ==> FamilyOf(p.source) == IPv4
  {
    ChainsAreExact(in_, ForwardHook, p, mark);
    Ip6OnlyLoopback(ForwardHook, p, mark);
  }

  // ---- Connections ----

  datatype Event = Event(hook: Hook, packet: Packet)

  /** A connection's mark after its packets have passed the chains, in order. */
  function MarkAfter(in_: Input, events: seq<Event>, mark: bv32): bv32
    decreases |events|
  {
    if events == [] then mark
    else MarkAfter(in_, events[1..], Evaluate(LayersFor(in_, events[0].hook).Rules(), events[0].packet, mark).mark)
  }

  /** Which interface a tag names: the one the packet came in on, or for host output the one it leaves by. */
  function TagEnd(v: Event): string {
    if v.hook.OutputHook? then v.packet.oif else v.packet.iif
  }

  predicate TagsOnceAll(rules: seq<Rule>, c: Config, hook: Hook) {
    forall k :: 0 <= k < |rules| && rules[k].effect.Tag? ==> ProperTag(rules[k], c, hook)
  }

  /** A tag rule for a declared interface, at the right end of the packet. */
  predicate ProperTag(r: Rule, c: Config, hook: Hook) {
    r.effect.Tag? && exists i :: 0 <= i < |c.interfaces| && r == InterfaceRule(if hook.OutputHook? then TagOut else TagIn, c.interfaces[i])
  }

  lemma NoTags(rules: seq<Rule>, f: Effect, c: Config, hook: Hook)
    requires Uniform(rules, f) && !f.Tag?
    ensures TagsOnceAll(rules, c, hook)
  {
  }

  lemma ProperAppend(a: seq<Rule>, b: seq<Rule>, c: Config, hook: Hook)
    requires TagsOnceAll(a, c, hook) && TagsOnceAll(b, c, hook)
    ensures TagsOnceAll(a + b, c, hook)
  {
    hide ProperTag;
    assert forall k :: 0 <= k < |a + b| ==> (a + b)[k] == if k < |a| then a[k] else b[k - |a|];
  }

  lemma ProperTags(c: Config, hook: Hook)
    ensures TagsOnceAll(InterfaceRules(if hook.OutputHook? then TagOut else TagIn, SortedInterfaces(c.interfaces)), c, hook)
  {
    var links := SortedInterfaces(c.interfaces);
    SortedSame(c.interfaces);
    hide SortedInterfaces, InterfaceRule;
    forall k | 0 <= k < |links| ensures exists i :: 0 <= i < |c.interfaces| && c.interfaces[i] == links[k] {
      assert links[k] in c.interfaces;
    }
  }

  lemma LayeredTags(l: Layered, c: Config, hook: Hook)
    requires l.Valid() && TagsOnceAll(l.tags, c, hook)
    ensures TagsOnceAll(l.Rules(), c, hook)
  {
    var z := [Rule([], Drop)];
    NoTags(l.guards, Drop, c, hook);
    NoTags(l.early, Accept, c, hook);
    NoTags(l.accepts, Accept, c, hook);
    NoTags(l.denies, Drop, c, hook);
    NoTags(l.replies, Accept, c, hook);
    NoTags(l.blocks, Drop, c, hook);
    NoTags(l.allows, Accept, c, hook);
    assert TagsOnceAll(z, c, hook);
    hide TagsOnceAll, Uniform;
    ProperAppend(l.allows, z, c, hook);
    ProperAppend(l.blocks, l.allows + z, c, hook);
    ProperAppend(l.replies, l.blocks + (l.allows + z), c, hook);
    ProperAppend(l.denies, l.replies + (l.blocks + (l.allows + z)), c, hook);
    ProperAppend(l.accepts, l.denies + (l.replies + (l.blocks + (l.allows + z))), c, hook);
    ProperAppend(l.tags, l.accepts + (l.denies + (l.replies + (l.blocks + (l.allows + z)))), c, hook);
    ProperAppend(l.early, l.tags + (l.accepts + (l.denies + (l.replies + (l.blocks + (l.allows + z))))), c, hook);
    ProperAppend(l.guards, l.early + (l.tags + (l.accepts + (l.denies + (l.replies + (l.blocks + (l.allows + z)))))), c, hook);
  }

  lemma LayersValid(in_: Input, hook: Hook, p: Packet)
    requires Faithful(in_.e)
    ensures LayersFor(in_, hook).Valid()
  {
    var c, e := in_.e.config, in_.e;
    GuardsExact(p, 0);
    NothingHits(Accept, p, 0);
    NothingHits(Drop, p, 0);
    SmallUniform(c);
    EmittedPoliciesExact(e, hook, Allow, p, 0);
    match hook {
      case InputHook =>
        TagRulesTag(TagIn, c);
        InputAcceptsExact(in_, p, 0);
        EmittedPoliciesExact(e, hook, Deny, p, 0);
        RepliesExact(ReplyIn, c, p, 0);
        SourceBlocksExact(in_, p, 0);
      case OutputHook =>
        TagRulesTag(TagOut, c);
        OutputAcceptsExact(in_, p, 0);
        OutputDeniesExact(in_, p, 0);
      case ForwardHook =>
        TagRulesTag(TagIn, c);
        RepliesExact(ReplyOut, c, p, 0);
        ForwardDeniesExact(in_, p, 0);
    }
  }

  lemma ChainTags(in_: Input, hook: Hook, p: Packet)
    requires Faithful(in_.e)
    ensures TagsOnceAll(LayersFor(in_, hook).Rules(), in_.e.config, hook)
  {
    LayersValid(in_, hook, p);
    ProperTags(in_.e.config, hook);
    LayeredTags(LayersFor(in_, hook), in_.e.config, hook);
  }

  lemma ProperIsOnce(rules: seq<Rule>, c: Config, hook: Hook)
    requires Validated(c) && TagsOnceAll(rules, c, hook)
    ensures TagsOnce(rules)
  {
    forall k | 0 <= k < |rules| && rules[k].effect.Tag?
      ensures rules[k].effect.id != 0 && Directed(Original) in rules[k].matches && MarkByte(0) in rules[k].matches
    {
      assert ProperTag(rules[k], c, hook);
      var kind := if hook.OutputHook? then TagOut else TagIn;
      var i :| 0 <= i < |c.interfaces| && rules[k] == InterfaceRule(kind, c.interfaces[i]);
      IdsAreOneToOne(c, c.interfaces[i], c.interfaces[i]);
      assert rules[k].matches[1] == Directed(Original) && rules[k].matches[2] == MarkByte(0);
    }
  }

  /** A declared interface carries this identity in this mark, and is the right end of this event. */
  predicate Identifies(c: Config, link: string, mark: bv32) {
    exists i :: 0 <= i < |c.interfaces| && c.interfaces[i].name == link && Reserved(mark) == Encoded(c.interfaces[i].id)
  }

  lemma TagIdentifies(rules: seq<Rule>, c: Config, v: Event, mark: bv32, m: bv32)
    requires TagsOnceAll(rules, c, v.hook) && SomeTagFired(rules, v.packet, mark, m)
    ensures Identifies(c, TagEnd(v), m)
  {
    hide Reserved, Encoded;
    var k :| 0 <= k < |rules| && TagFired(rules[k], v.packet, mark, m);
    assert ProperTag(rules[k], c, v.hook);
    var i :| 0 <= i < |c.interfaces| && rules[k] == InterfaceRule(if v.hook.OutputHook? then TagOut else TagIn, c.interfaces[i]);
    assert Holds(rules[k].matches[0], v.packet, mark);
  }

  /** One packet: the low bits stay; an identity stays; a new one is the packet's own interface's. */
  lemma PacketKeepsMark(in_: Input, v: Event, mark: bv32)
    requires Faithful(in_.e)
    ensures var m := Evaluate(LayersFor(in_, v.hook).Rules(), v.packet, mark).mark;
      && Kept(m) == Kept(mark)
      && (Reserved(mark) != 0 ==> m == mark)
      && (m != mark ==> v.packet.direction == Original && Identifies(in_.e.config, TagEnd(v), m))
  {
    var c, rules := in_.e.config, LayersFor(in_, v.hook).Rules();
    ChainTags(in_, v.hook, v.packet);
    hide Kept, Reserved, Encoded, LayersFor, TagsOnceAll, TagsOnce, SomeTagFired, Identifies, Evaluate, Validated;
    ProperIsOnce(rules, c, v.hook);
    MarkIsTaggedOnce(rules, v.packet, mark);
    var m := Evaluate(rules, v.packet, mark).mark;
    if m != mark {
      TagIdentifies(rules, c, v, mark, m);
    }
  }

  /**
   Over any sequence of packets of a connection the low 24 bits never change, and the reserved byte
   goes from zero to the identity of one of the packets' own interfaces at most once.
   */
  lemma {:induction false} ConnectionKeepsMark(in_: Input, events: seq<Event>, mark: bv32)
    requires Faithful(in_.e)
    ensures Kept(MarkAfter(in_, events, mark)) == Kept(mark)
    ensures Reserved(mark) != 0 ==> MarkAfter(in_, events, mark) == mark
    ensures MarkAfter(in_, events, mark) != mark ==>
      exists k :: 0 <= k < |events| && events[k].packet.direction == Original
        && Identifies(in_.e.config, TagEnd(events[k]), MarkAfter(in_, events, mark))
    decreases |events|
  {
    hide Kept, Reserved, Identifies, LayersFor;
    if events != [] {
      var m := Evaluate(LayersFor(in_, events[0].hook).Rules(), events[0].packet, mark).mark;
      PacketKeepsMark(in_, events[0], mark);
      ConnectionKeepsMark(in_, events[1..], m);
      if m != mark {
        IdentityIsNonzero(in_.e.config, TagEnd(events[0]), m);
      }
    }
  }

  lemma IdentityIsNonzero(c: Config, link: string, mark: bv32)
    requires Validated(c) && Identifies(c, link, mark)
    ensures Reserved(mark) != 0
  {
    hide Reserved, Encoded;
    var i :| 0 <= i < |c.interfaces| && c.interfaces[i].name == link && Reserved(mark) == Encoded(c.interfaces[i].id);
    IdsAreOneToOne(c, c.interfaces[i], c.interfaces[i]);
    EncodedIsInjective(c.interfaces[i].id, 0);
  }

  /** An identity belongs to one interface. */
  lemma IdentityIsUnique(c: Config, a: string, b: string, mark: bv32)
    requires Validated(c) && Identifies(c, a, mark) && Identifies(c, b, mark)
    ensures a == b
  {
    hide Reserved, Encoded;
    var i :| 0 <= i < |c.interfaces| && c.interfaces[i].name == a && Reserved(mark) == Encoded(c.interfaces[i].id);
    var j :| 0 <= j < |c.interfaces| && c.interfaces[j].name == b && Reserved(mark) == Encoded(c.interfaces[j].id);
    EncodedIsInjective(c.interfaces[i].id, c.interfaces[j].id);
    IdsAreOneToOne(c, c.interfaces[i], c.interfaces[j]);
  }

  /**
   Once a connection carries an interface's identity, whatever packets follow, a reply that the
   provenance rules let through uses exactly that interface.
   */
  lemma RepliesReturnWhereTheyCame(in_: Input, events: seq<Event>, mark: bv32, owner: string, p: Packet, link: string)
    requires Faithful(in_.e) && Identifies(in_.e.config, owner, mark)
    requires ReplyOn(in_.e.config, link, p, MarkAfter(in_, events, mark))
    ensures link == owner
  {
    ConnectionKeepsMark(in_, events, mark);
    IdentityIsNonzero(in_.e.config, owner, mark);
    hide Reserved, Encoded, Kept;
    assert Identifies(in_.e.config, link, mark);
    IdentityIsUnique(in_.e.config, link, owner, mark);
  }
}
