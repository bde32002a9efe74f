/** Every generation compiled from a validated configuration passes the ownership validator. */
module ScriptAcceptance {
  import opened Numerals
  import opened Texts
  import opened ProvenanceIds
  import opened PolicyModel
  import opened PacketRules
  import opened PolicyCompiler
  import opened ScriptLines
  import opened ScriptWords
  import opened CompiledScript
  import opened ScriptClauses

  import ScriptGuard

  // ---- The compiled rules stay inside their quotes ----

  lemma LinkNameFits(n: string)
    requires InterfaceNameOk(n)
    ensures NameFits(n)
  {
  }

  lemma NameIsPlain(n: string)
    requires NameOk(n)
    ensures NameFits(n)
  {
  }

  lemma DeclaredFits(c: Config, name: string)
    requires Validated(c) && Declares(c.interfaces, name)
    ensures NameFits(name)
  {
    hide ZonesOk, ServicesOk, PoliciesOk, VpnOk, OneUplink, IdentityOk, InterfaceNameOk, NameFits;
    var k :| 0 <= k < |c.interfaces| && c.interfaces[k].name == name;
    assert InterfaceOk(c.interfaces[k]);
    LinkNameFits(name);
  }

  lemma FitAppend(in_: Input, a: seq<Rule>, b: seq<Rule>)
    requires RulesFit(a, in_) && RulesFit(b, in_)
    ensures RulesFit(a + b, in_)
  {
    hide RuleFits;
  }

  lemma InterfaceRulesFit(in_: Input, kind: InterfaceRuleKind, c: Config)
    requires Validated(c)
    ensures RulesFit(InterfaceRules(kind, SortedInterfaces(c.interfaces)), in_)
  {
    var links := SortedInterfaces(c.interfaces);
    SortedSame(c.interfaces);
    hide SortedInterfaces, Validated, NameFits;
    forall k | 0 <= k < |links| ensures RuleFits(InterfaceRules(kind, links)[k], in_) {
      assert links[k] in c.interfaces;
      DeclaredFits(c, links[k].name);
    }
  }

  /** The bindings of validated interfaces. */
  predicate BindingsFit(bs: seq<Binding>) {
    forall i :: 0 <= i < |bs| ==> NameFits(bs[i].link)
  }

  lemma {:induction false} BindingsInFit(links: seq<Interface>)
    requires forall i :: 0 <= i < |links| ==> NameFits(links[i].name)
    ensures BindingsFit(BindingsIn(links))
  {
    hide NameFits;
    if links != [] {
      BindingsInFit(links[..|links| - 1]);
    }
  }

  lemma ContainerBindingsFit(c: Config)
    requires Validated(c)
    ensures BindingsFit(ContainerBindings(c))
  {
    hide Validated, NameFits, BindingsIn;
    forall i | 0 <= i < |c.interfaces| ensures NameFits(c.interfaces[i].name) {
      DeclaredFits(c, c.interfaces[i].name);
    }
    BindingsInFit(c.interfaces);
    SortMembers(BindingsIn(c.interfaces), (b: Binding) => b.link);
    forall i | 0 <= i < |ContainerBindings(c)| ensures NameFits(ContainerBindings(c)[i].link) {
      assert ContainerBindings(c)[i] in BindingsIn(c.interfaces);
    }
  }

  lemma EndsFit(c: Config)
    requires Validated(c)
    ensures NameFits(c.vpn) && NameFits(UplinkName(c.interfaces))
  {
    hide Validated, NameFits, InterfaceNameOk;
    assert VpnOk(c) && OneUplink(c.interfaces) by {
      assert Validated(c);
      VpnAndUplink(c);
    }
    LinkNameFits(c.vpn);
    UplinkIsDeclared(c.interfaces);
    DeclaredFits(c, UplinkName(c.interfaces));
  }

  lemma VpnAndUplink(c: Config)
    requires Validated(c)
    ensures VpnOk(c) && OneUplink(c.interfaces)
  {
  }

  lemma {:induction false} BindingRulesFit(in_: Input, kind: BindingRuleKind, bs: seq<Binding>, c: Config)
    requires BindingsFit(bs) && NameFits(c.vpn) && NameFits(UplinkName(c.interfaces))
    ensures RulesFit(AllBindingRules(kind, bs, c), in_)
  {
    hide NameFits, UplinkName;
    if bs != [] {
      BindingRulesFit(in_, kind, bs[..|bs| - 1], c);
      OneBindingFits(in_, kind, bs[|bs| - 1], c);
      FitAppend(in_, AllBindingRules(kind, bs[..|bs| - 1], c), BindingRules(kind, bs[|bs| - 1], c));
    }
  }

  lemma OneBindingFits(in_: Input, kind: BindingRuleKind, b: Binding, c: Config)
    requires NameFits(b.link) && NameFits(c.vpn) && NameFits(UplinkName(c.interfaces))
    ensures RulesFit(BindingRules(kind, b, c), in_)
  {
    hide NameFits, UplinkName;
  }

  // ---- Zones and policies ----

  predicate SelectorsFit(ss: seq<Selector>, in_: Input) {
    forall i :: 0 <= i < |ss| ==> ClausesFit(ss[i].matches, in_) && Simple(ss[i].matches)
  }

  predicate NamesFit(ns: seq<string>) {
    forall i :: 0 <= i < |ns| ==> NameFits(ns[i])
  }

  lemma {:induction false} CrossFits(in_: Input, ss: seq<Selector>, names: seq<string>, destination: bool)
    requires SelectorsFit(ss, in_) && NamesFit(names)
    ensures SelectorsFit(Cross(ss, names, destination), in_)
  {
    hide NameFits;
    if ss != [] {
      CrossFits(in_, ss[..|ss| - 1], names, destination);
      var last := ss[|ss| - 1];
      forall k | 0 <= k < |names| ensures ClausesFit(CrossOne(last, names, destination)[k].matches, in_) {
        assert NameFits(names[k]);
      }
    }
  }

  lemma {:induction false} LinkSelectorsFit(in_: Input, names: seq<string>, destination: bool)
    requires NamesFit(names)
    ensures SelectorsFit(LinkSelectors(names, destination), in_)
  {
    hide NameFits;
    if names != [] {
      LinkSelectorsFit(in_, names[..|names| - 1], destination);
      assert NameFits(names[|names| - 1]);
    }
  }

  lemma {:induction false} NamedInDeclared(links: seq<Interface>, zone: string)
    ensures forall x :: x in NamedIn(links, zone) ==> Declares(links, x)
  {
    if links != [] {
      var before := links[..|links| - 1];
      NamedInDeclared(before, zone);
      forall x | x in NamedIn(links, zone) ensures Declares(links, x) {
        if x in NamedIn(before, zone) {
          var i :| 0 <= i < |before| && before[i].name == x;
          assert links[i].name == x;
        } else {
          assert links[|links| - 1].name == x;
        }
      }
    }
  }

  lemma ZoneLinksFit(e: Effective, name: string)
    requires Faithful(e) && name in e.zones
    ensures NamesFit(ZoneLinks(e, name))
  {
    var c, zone := e.config, e.zones[name];
    var all := zone.interfaces + NamedIn(c.interfaces, name);
    NamedInDeclared(c.interfaces, name);
    SortMembers(all, (x: string) => x);
    ZoneDeclares(c, zone);
    hide NameFits, Validated, Dedup, NamedIn, Declares;
    forall i | 0 <= i < |ZoneLinks(e, name)| ensures NameFits(ZoneLinks(e, name)[i]) {
      DedupMembers(SortBy(all, (x: string) => x), ZoneLinks(e, name)[i]);
      assert ZoneLinks(e, name)[i] in all;
      DeclaredFits(c, ZoneLinks(e, name)[i]);
    }
  }

  lemma ZoneDeclares(c: Config, zone: Zone)
    requires Validated(c) && zone in c.zones
    ensures forall x :: x in zone.interfaces ==> Declares(c.interfaces, x)
  {
    hide InterfacesOk, OneUplink, ServicesOk, PoliciesOk, VpnOk, NameOk, Declares;
    var k :| 0 <= k < |c.zones| && c.zones[k] == zone;
    assert ZoneOk(c, c.zones[k]);
  }

  lemma NetworkSelectorsFit(in_: Input, networks: seq<Prefix>, destination: bool)
    ensures SelectorsFit(NetworkSelectors(networks, destination), in_)
  {
  }

  lemma AnySelectorsFit(in_: Input)
    ensures SelectorsFit([], in_) && SelectorsFit(BothFamilies([]), in_)
  {
  }

  lemma ZoneSelectorsFit(in_: Input, name: string, destination: bool, e: Effective)
    requires Faithful(e)
    ensures SelectorsFit(ZoneSelectors(name, destination, e), in_)
  {
    AnySelectorsFit(in_);
    if name != "host" && name != "any" && name in e.zones {
      var networks, links := NetworkSelectors(e.zones[name].networks, destination), ZoneLinks(e, name);
      ZoneLinksFit(e, name);
      hide Faithful, NameFits, ZoneLinks, Cross, LinkSelectors;
      NetworkSelectorsFit(in_, e.zones[name].networks, destination);
      hide SelectorsFit, NetworkSelectors;
      CrossFits(in_, networks, links, destination);
      LinkSelectorsFit(in_, links, destination);
    }
  }

  /** One transport with its ports and nothing about ICMP. */
  lemma OneTransport(ms: seq<Match>, k: nat, j: nat, t: Transport)
    requires k < |ms| && j < |ms| && ms[k] == Carries(t) && IsPort(ms[j]) && (t.TcpPacket? || t.UdpPacket?)
    requires forall i :: 0 <= i < |ms| ==> !ms[i].IcmpIs? && (ms[i].Carries? ==> ms[i] == ms[k])
    ensures Written(ms)
  {
    assert Carries(t) in ms;
    assert TransportOf(ms) == t;
  }

  lemma ServiceFits(in_: Input, s: Service, f: Family)
    ensures ClausesFit(ServiceMatches(s, f), in_)
  {
  }

  lemma ServiceWritten(front: seq<Match>, s: Service, f: Family)
    requires Simple(front) && !s.protocol.OtherProtocol?
    ensures Written(front + ServiceMatches(s, f))
  {
    var ms := front + ServiceMatches(s, f);
    match s.protocol
    case Tcp => OneTransport(ms, |front|, |front| + 1, TcpPacket);
    case Udp => OneTransport(ms, |front|, |front| + 1, UdpPacket);
    case Icmp =>
    case AnyProtocol =>
  }

  lemma ClausesAppend(in_: Input, a: seq<Match>, b: seq<Match>)
    requires ClausesFit(a, in_) && ClausesFit(b, in_)
    ensures ClausesFit(a + b, in_)
  {
    hide MatchFits;
  }

  lemma OneLinkFits(in_: Input, name: string)
    requires NameFits(name)
    ensures ClausesFit([Oif(name)], in_)
  {
  }

  lemma OutputRulesFit(in_: Input, p: Policy, s: Service, e: Effective, dsts: seq<Selector>)
    requires SelectorsFit(dsts, in_) && NameFits(e.config.vpn) && !s.protocol.OtherProtocol?
    ensures RulesFit(OutputRules(p, s, e, dsts), in_)
  {
    OneLinkFits(in_, e.config.vpn);
    hide NameFits, MatchFits, ServiceMatches, Written;
    forall k | 0 <= k < |dsts| ensures RuleFits(OutputRule(p, s, e, dsts[k]), in_) {
      ServiceFits(in_, s, dsts[k].family);
      var vpn := if p.target == "any" || dsts[k].requiresVpn then [Oif(e.config.vpn)] else [];
      ClausesAppend(in_, dsts[k].matches, vpn);
      ClausesAppend(in_, dsts[k].matches + vpn, ServiceMatches(s, dsts[k].family));
      ServiceWritten(dsts[k].matches + vpn, s, dsts[k].family);
    }
  }

  lemma InputRulesFit(in_: Input, p: Policy, s: Service, srcs: seq<Selector>)
    requires SelectorsFit(srcs, in_) && !s.protocol.OtherProtocol?
    ensures RulesFit(InputRules(p, s, srcs), in_)
  {
    hide MatchFits, ServiceMatches, Written;
    forall k | 0 <= k < |srcs| ensures RuleFits(InputRule(p, s, srcs[k]), in_) {
      ServiceFits(in_, s, srcs[k].family);
      ClausesAppend(in_, srcs[k].matches, ServiceMatches(s, srcs[k].family));
      ServiceWritten(srcs[k].matches, s, srcs[k].family);
    }
  }

  lemma ForwardRuleFits(in_: Input, p: Policy, s: Service, e: Effective, src: Selector, dst: Selector)
    requires ClausesFit(src.matches, in_) && ClausesFit(dst.matches, in_) && NameFits(e.config.vpn)
    requires Simple(src.matches) && Simple(dst.matches) && !s.protocol.OtherProtocol?
    ensures RuleFits(ForwardRule(p, s, e, src, dst), in_)
  {
    OneLinkFits(in_, e.config.vpn);
    hide NameFits, MatchFits, ServiceMatches, Written;
    var vpn := if p.target == "any" then [Oif(e.config.vpn)] else [];
    ServiceFits(in_, s, src.family);
    ClausesAppend(in_, src.matches, dst.matches);
    ClausesAppend(in_, src.matches + dst.matches, vpn);
    ClausesAppend(in_, src.matches + dst.matches + vpn, ServiceMatches(s, src.family));
    ServiceWritten(src.matches + dst.matches + vpn, s, src.family);
  }

  lemma {:induction false} ForwardRulesFromFit(in_: Input, p: Policy, s: Service, e: Effective, src: Selector, dsts: seq<Selector>)
    requires ClausesFit(src.matches, in_) && Simple(src.matches) && SelectorsFit(dsts, in_) && NameFits(e.config.vpn)
    requires !s.protocol.OtherProtocol?
    ensures RulesFit(ForwardRulesFrom(p, s, e, src, dsts), in_)
  {
    hide NameFits, ClausesFit, RuleFits, ForwardRule, Simple;
    if dsts != [] {
      ForwardRulesFromFit(in_, p, s, e, src, dsts[..|dsts| - 1]);
      ForwardRuleFits(in_, p, s, e, src, dsts[|dsts| - 1]);
    }
  }

  lemma {:induction false} ForwardRulesFit(in_: Input, p: Policy, s: Service, e: Effective, srcs: seq<Selector>, dsts: seq<Selector>)
    requires SelectorsFit(srcs, in_) && SelectorsFit(dsts, in_) && NameFits(e.config.vpn) && !s.protocol.OtherProtocol?
    ensures RulesFit(ForwardRules(p, s, e, srcs, dsts), in_)
  {
    hide NameFits, ClausesFit, RuleFits, ForwardRulesFrom, Simple;
    if srcs != [] {
      ForwardRulesFit(in_, p, s, e, srcs[..|srcs| - 1], dsts);
      ForwardRulesFromFit(in_, p, s, e, srcs[|srcs| - 1], dsts);
      FitAppend(in_, ForwardRules(p, s, e, srcs[..|srcs| - 1], dsts), ForwardRulesFrom(p, s, e, srcs[|srcs| - 1], dsts));
    }
  }

  lemma PolicyRulesFit(in_: Input, p: Policy, s: Service, e: Effective, hook: Hook)
    requires Faithful(e) && !s.protocol.OtherProtocol?
    ensures RulesFit(PolicyRules(p, s, e, hook), in_)
  {
    EndsFit(e.config);
    ZoneSelectorsFit(in_, p.target, true, e);
    ZoneSelectorsFit(in_, p.source, false, e);
    hide Faithful, NameFits, SelectorsFit, RulesFit, ZoneSelectors, OutputRules, InputRules, ForwardRules;
    OutputRulesFit(in_, p, s, e, ZoneSelectors(p.target, true, e));
    InputRulesFit(in_, p, s, ZoneSelectors(p.source, false, e));
    ForwardRulesFit(in_, p, s, e, ZoneSelectors(p.source, false, e), ZoneSelectors(p.target, true, e));
  }

  lemma ServiceIsKnown(e: Effective, name: string)
    requires Faithful(e) && name in e.services
    ensures !e.services[name].protocol.OtherProtocol?
  {
    hide InterfacesOk, OneUplink, ZonesOk, PoliciesOk, VpnOk, NameOk;
    assert ServicesOk(e.config);
    var k :| 0 <= k < |e.config.services| && e.config.services[k] == e.services[name];
    assert ServiceOk(e.config.services[k]);
  }

  lemma {:induction false} RulesOfPoliciesFit(in_: Input, ps: seq<Policy>, e: Effective, hook: Hook, action: PolicyAction)
    requires Faithful(e)
    ensures RulesFit(RulesOfPolicies(ps, e, hook, action), in_)
  {
    hide Faithful, PolicyRules;
    if ps != [] {
      var last := ps[|ps| - 1];
      RulesOfPoliciesFit(in_, ps[..|ps| - 1], e, hook, action);
      if Selected(last, e, hook, action) {
        ServiceIsKnown(e, last.service);
        PolicyRulesFit(in_, last, e.services[last.service], e, hook);
      }
      FitAppend(in_, RulesOfPolicies(ps[..|ps| - 1], e, hook, action), RulesOfPolicy(last, e, hook, action));
    }
  }

  lemma PoliciesFit(in_: Input, e: Effective, hook: Hook)
    requires Faithful(e)
    ensures RulesFit(Policies(e, hook, Deny), in_) && RulesFit(Policies(e, hook, Allow), in_)
  {
    hide Faithful, RulesOfPolicies;
    RulesOfPoliciesFit(in_, SortedPolicies(e.config), e, hook, Deny);
    RulesOfPoliciesFit(in_, SortedPolicies(e.config), e, hook, Allow);
  }

  // ---- Chains ----

  lemma LayeredFits(in_: Input, l: Layered)
    requires RulesFit(l.guards, in_) && RulesFit(l.early, in_) && RulesFit(l.tags, in_) && RulesFit(l.accepts, in_)
    requires RulesFit(l.denies, in_) && RulesFit(l.replies, in_) && RulesFit(l.blocks, in_) && RulesFit(l.allows, in_)
    ensures RulesFit(l.Rules(), in_)
  {
    var last := [Rule([], Drop)];
    assert RulesFit(last, in_);
    hide RulesFit;
    FitAppend(in_, l.allows, last);
    FitAppend(in_, l.blocks, l.allows + last);
    FitAppend(in_, l.replies, l.blocks + (l.allows + last));
    FitAppend(in_, l.denies, l.replies + (l.blocks + (l.allows + last)));
    FitAppend(in_, l.accepts, l.denies + (l.replies + (l.blocks + (l.allows + last))));
    FitAppend(in_, l.tags, l.accepts + (l.denies + (l.replies + (l.blocks + (l.allows + last)))));
    FitAppend(in_, l.early, l.tags + (l.accepts + (l.denies + (l.replies + (l.blocks + (l.allows + last))))));
    FitAppend(in_, l.guards, l.early + (l.tags + (l.accepts + (l.denies + (l.replies + (l.blocks + (l.allows + last)))))));
  }

  lemma LoopbackFits(in_: Input)
    ensures RulesFit([INVALID_DROP], in_) && RulesFit([Rule([Iif("lo")], Accept)], in_) && RulesFit([Rule([Oif("lo")], Accept)], in_)
  {
    assert NameFits("lo");
  }

  lemma FixedRulesFit(in_: Input, c: Config)
    requires NameFits(UplinkName(c.interfaces))
    ensures RulesFit(Only6(c, [NEIGHBOR_DISCOVERY]), in_) && RulesFit(Only6(c, [NEIGHBOR_DISCOVERY, DhcpV6Rule(c)]), in_)
    ensures RulesFit([DhcpRule(c)], in_)
  {
    hide NameFits, UplinkName;
    DhcpFits(in_, c);
    assert RuleFits(NEIGHBOR_DISCOVERY, in_);
    hide RuleFits;
    assert [NEIGHBOR_DISCOVERY, DhcpV6Rule(c)][0] == NEIGHBOR_DISCOVERY;
  }

  lemma DhcpFits(in_: Input, c: Config)
    requires NameFits(UplinkName(c.interfaces))
    ensures RuleFits(DhcpRule(c), in_) && RuleFits(DhcpV6Rule(c), in_)
  {
    hide NameFits, UplinkName;
    OneTransport(DhcpRule(c).matches, 1, 2, UdpPacket);
    OneTransport(DhcpV6Rule(c).matches, 1, 2, UdpPacket);
  }

  lemma SetRulesFit(in_: Input)
    requires NameFits(UplinkName(in_.e.config.interfaces))
    ensures RulesFit(BootstrapRules(in_), in_) && RulesFit(TrustedRules(in_, Tcp, TcpPacket), in_) && RulesFit(TrustedRules(in_, Udp, UdpPacket), in_)
  {
    hide NameFits, UplinkName, TrustedPorts;
    TrustedFit(in_, Tcp, TcpPacket);
    TrustedFit(in_, Udp, UdpPacket);
    var rules := BootstrapRules(in_);
    if rules != [] {
      OneTransport(rules[0].matches, 3, 4, UdpPacket);
      OneTransport(rules[1].matches, 3, 4, UdpPacket);
    }
  }

  lemma TrustedFit(in_: Input, protocol: Protocol, t: Transport)
    requires t.TcpPacket? || t.UdpPacket?
    ensures RulesFit(TrustedRules(in_, protocol, t), in_)
  {
    hide TrustedPorts;
    var rules := TrustedRules(in_, protocol, t);
    if rules != [] {
      OneTransport(rules[0].matches, 1, 2, t);
      OneTransport(rules[1].matches, 1, 2, t);
    }
  }

  lemma InputBlocksFit(in_: Input)
    ensures RulesFit([Rule([SourceSet(Blocked4, in_.blocked4)], Drop), Rule([SourceSet(Blocked6, in_.blocked6)], Drop)], in_)
  {
  }

  lemma InputFits(in_: Input)
    requires Faithful(in_.e)
    ensures RulesFit(InputLayers(in_).Rules(), in_)
  {
    var c := in_.e.config;
    EndsFit(c);
    LoopbackFits(in_);
    FixedRulesFit(in_, c);
    SetRulesFit(in_);
    InterfaceRulesFit(in_, TagIn, c);
    InterfaceRulesFit(in_, ReplyIn, c);
    PoliciesFit(in_, in_.e, InputHook);
    hide Faithful, NameFits, Only6, TrustedRules, Policies, InterfaceRules, SortedInterfaces, UplinkName;
    var l := InputLayers(in_);
    InputBlocksFit(in_);
    hide RulesFit;
    FitAppend(in_, Only6(c, [NEIGHBOR_DISCOVERY]), TrustedRules(in_, Tcp, TcpPacket));
    FitAppend(in_, Only6(c, [NEIGHBOR_DISCOVERY]) + TrustedRules(in_, Tcp, TcpPacket), TrustedRules(in_, Udp, UdpPacket));
    LayeredFits(in_, l);
  }

  lemma OutputAcceptsFit(in_: Input)
    requires Faithful(in_.e)
    ensures RulesFit(OutputLayers(in_).accepts, in_)
  {
    var c := in_.e.config;
    EndsFit(c);
    LoopbackFits(in_);
    FixedRulesFit(in_, c);
    SetRulesFit(in_);
    InterfaceRulesFit(in_, ReplyOut, c);
    ContainerBindingsFit(c);
    hide Faithful, NameFits, Only6, BootstrapRules, Policies, InterfaceRules, SortedInterfaces, UplinkName, ContainerBindings, AllBindingRules, RulesFit;
    BindingRulesFit(in_, PathErrors, ContainerBindings(c), c);
    var a := [Rule([Oif("lo")], Accept)] + InterfaceRules(ReplyOut, SortedInterfaces(c.interfaces));
    FitAppend(in_, [Rule([Oif("lo")], Accept)], InterfaceRules(ReplyOut, SortedInterfaces(c.interfaces)));
    var b := a + AllBindingRules(PathErrors, ContainerBindings(c), c);
    FitAppend(in_, a, AllBindingRules(PathErrors, ContainerBindings(c), c));
    var d := b + Only6(c, [NEIGHBOR_DISCOVERY, DhcpV6Rule(c)]);
    FitAppend(in_, b, Only6(c, [NEIGHBOR_DISCOVERY, DhcpV6Rule(c)]));
    FitAppend(in_, d, [DhcpRule(c)]);
    FitAppend(in_, d + [DhcpRule(c)], BootstrapRules(in_));
  }

  lemma OutputBlocksFit(in_: Input)
    requires NameFits(in_.e.config.vpn)
    ensures RulesFit([Rule([DestinationSet(Blocked4, in_.blocked4)], Drop), Rule([DestinationSet(Blocked6, in_.blocked6)], Drop),
      Rule([Oif(in_.e.config.vpn)], Count)], in_)
  {
    hide NameFits;
  }

  lemma OutputFits(in_: Input)
    requires Faithful(in_.e)
    ensures RulesFit(OutputLayers(in_).Rules(), in_)
  {
    var c, l := in_.e.config, OutputLayers(in_);
    OutputAcceptsFit(in_);
    EndsFit(c);
    LoopbackFits(in_);
    FixedRulesFit(in_, c);
    InterfaceRulesFit(in_, TagOut, c);
    PoliciesFit(in_, in_.e, OutputHook);
    OutputBlocksFit(in_);
    NoRulesFit(in_);
    hide Faithful, NameFits, Only6, BootstrapRules, Policies, InterfaceRules, SortedInterfaces, UplinkName, ContainerBindings, AllBindingRules, RulesFit;
    FitAppend(in_, [Rule([DestinationSet(Blocked4, in_.blocked4)], Drop), Rule([DestinationSet(Blocked6, in_.blocked6)], Drop),
      Rule([Oif(c.vpn)], Count)], Policies(in_.e, OutputHook, Deny));
    LayeredFits(in_, l);
  }

  lemma NoRulesFit(in_: Input)
    ensures RulesFit([], in_)
  {
  }

  lemma ForwardBlocksFit(in_: Input)
    ensures RulesFit([Rule([SourceSet(Blocked4, in_.blocked4)], Drop), Rule([DestinationSet(Blocked4, in_.blocked4)], Drop),
      Rule([SourceSet(Blocked6, in_.blocked6)], Drop), Rule([DestinationSet(Blocked6, in_.blocked6)], Drop)], in_)
  {
  }

  lemma ForwardDeniesFit(in_: Input)
    requires Faithful(in_.e)
    ensures RulesFit(ForwardLayers(in_).denies, in_)
  {
    var c := in_.e.config;
    EndsFit(c);
    ContainerBindingsFit(c);
    PoliciesFit(in_, in_.e, ForwardHook);
    ForwardBlocksFit(in_);
    OneLinkFits(in_, UplinkName(c.interfaces));
    var uplink := [Rule([Oif(UplinkName(c.interfaces))], Drop)];
    assert RulesFit(uplink, in_);
    hide Faithful, NameFits, Policies, InterfaceRules, SortedInterfaces, UplinkName, ContainerBindings, AllBindingRules, RulesFit;
    BindingRulesFit(in_, Guards, ContainerBindings(c), c);
    BindingRulesFit(in_, Markers, ContainerBindings(c), c);
    var blocked := [Rule([SourceSet(Blocked4, in_.blocked4)], Drop), Rule([DestinationSet(Blocked4, in_.blocked4)], Drop),
                    Rule([SourceSet(Blocked6, in_.blocked6)], Drop), Rule([DestinationSet(Blocked6, in_.blocked6)], Drop)];
    var a := blocked + AllBindingRules(Guards, ContainerBindings(c), c);
    FitAppend(in_, blocked, AllBindingRules(Guards, ContainerBindings(c), c));
    FitAppend(in_, a, uplink);
    FitAppend(in_, a + uplink, Policies(in_.e, ForwardHook, Deny));
    FitAppend(in_, a + uplink + Policies(in_.e, ForwardHook, Deny), AllBindingRules(Markers, ContainerBindings(c), c));
  }

  lemma ForwardFits(in_: Input)
    requires Faithful(in_.e)
    ensures RulesFit(ForwardLayers(in_).Rules(), in_)
  {
    var c := in_.e.config;
    EndsFit(c);
    LoopbackFits(in_);
    FixedRulesFit(in_, c);
    InterfaceRulesFit(in_, TagIn, c);
    InterfaceRulesFit(in_, ReplyOut, c);
    PoliciesFit(in_, in_.e, ForwardHook);
    ForwardDeniesFit(in_);
    NoRulesFit(in_);
    hide Faithful, NameFits, Policies, InterfaceRules, SortedInterfaces, UplinkName, ContainerBindings, AllBindingRules, RulesFit;
    LayeredFits(in_, ForwardLayers(in_));
  }

  // ---- Tables ----

  lemma FineAppend(a: seq<TextLine>, b: seq<TextLine>)
    requires FineLines(a) && FineLines(b)
    ensures FineLines(a + b)
  {
    hide FineLine;
  }

  lemma OneFine(n: nat, ts: seq<Token>)
    requires MildTokens(ts)
    ensures FineLines([Statement(n, ts)])
  {
  }

  lemma ClosingFine()
    ensures FineLines([CLOSE]) && FineLines([CLOSE_TABLE]) && FineLines([EMPTY_LINE])
  {
    BraceIsMild();
    hide MildToken;
  }

  lemma OpeningFine(t: ScriptGuard.Table)
    requires t in ScriptGuard.OWNED
    ensures FineLines([TableLine(t)])
  {
  }

  lemma SpelledFits(ps: seq<Prefix>, sp: Spelling)
    requires SpellingOk(sp)
    ensures MildTokens(Braced(SortBy(Spelled(ps, sp), (x: string) => x)))
  {
    var texts := Spelled(ps, sp);
    SortMembers(texts, (x: string) => x);
    var sorted := SortBy(texts, (x: string) => x);
    hide MildWord, MildTokens, Braced, SortBy, ScriptGuard.PrefixText;
    forall i | 0 <= i < |sorted| ensures MildWord(sorted[i]) && MildWord(sorted[i] + ",") {
      assert sorted[i] in texts;
      PrefixIsMild(sorted[i]);
    }
    BracedIsMild(sorted);
  }

  lemma SetNameFine(name: string)
    requires Underscored(name)
    ensures MildTokens(WordTokens(["set", name, "{"]))
  {
    hide MildWord, MildTokens, Underscored, WordTokens;
    UnderscoredIsMild(name);
    EffectWords();
    BraceWords();
    ThreeMild("set", name, "{");
  }

  lemma SetTypeFine(kind: string, timed: bool)
    requires kind == "ipv4_addr" || kind == "ipv6_addr"
    ensures MildTokens(WordTokens(["type", kind + ";"]) + WordTokens(if timed then ["flags", "interval,", "timeout;"] else ["flags", "interval;"]))
  {
    hide MildWord, MildTokens, WordTokens;
    AddressWord(kind);
    TransportWords();
    SetWords();
    TwoMild("type", kind + ";");
    ThreeMild("flags", "interval,", "timeout;");
    TwoMild("flags", "interval;");
    MildAppend(WordTokens(["type", kind + ";"]), WordTokens(if timed then ["flags", "interval,", "timeout;"] else ["flags", "interval;"]));
  }

  lemma SetNoteFits(name: string)
    requires Underscored(name)
    ensures NameFits("nftfw-owned:" + name)
  {
  }

  lemma SetCommentFine(name: string)
    requires Underscored(name)
    ensures MildTokens([Word("comment"), Str("nftfw-owned:" + name, "")])
  {
    hide MildWord, MildTokens, NameFits, Underscored;
    EffectWords();
    SetNoteFits(name);
    QuotedName("comment", "nftfw-owned:" + name);
  }

  lemma SetHeadFine(name: string, kind: string, timed: bool)
    requires Underscored(name) && (kind == "ipv4_addr" || kind == "ipv6_addr")
    ensures FineLines(SetHead(name, kind, timed))
  {
    SetNameFine(name);
    SetTypeFine(kind, timed);
    SetCommentFine(name);
    hide MildTokens, Underscored;
    var flags := if timed then ["flags", "interval,", "timeout;"] else ["flags", "interval;"];
    MildAppend(WordTokens(["type", kind + ";"]) + WordTokens(flags), [Word("comment"), Str("nftfw-owned:" + name, "")]);
  }

  lemma ElementsFine(ps: seq<Prefix>, sp: Spelling)
    requires SpellingOk(sp)
    ensures FineLines(SetElements(Spelled(ps, sp)))
  {
    hide MildWord, MildTokens, WordTokens, Braced, SortBy, SpellingOk;
    SetWords();
    OperatorWords();
    SpelledFits(ps, sp);
    TwoMild("elements", "=");
    MildAppend(WordTokens(["elements", "="]), Braced(SortBy(Spelled(ps, sp), (x: string) => x)));
  }

  lemma SetLinesFine(name: string, kind: string, ps: seq<Prefix>, timed: bool, sp: Spelling)
    requires Underscored(name) && (kind == "ipv4_addr" || kind == "ipv6_addr") && SpellingOk(sp)
    ensures FineLines(SetLines(name, kind, Spelled(ps, sp), timed))
  {
    SetHeadFine(name, kind, timed);
    ElementsFine(ps, sp);
    ClosingFine();
    hide FineLines, SetHead, SetElements, SpellingOk, Underscored;
    FineAppend(SetHead(name, kind, timed), SetElements(Spelled(ps, sp)));
    FineAppend(SetHead(name, kind, timed) + SetElements(Spelled(ps, sp)), [CLOSE]);
  }

  // ---- The filter table ----

  lemma SetTexts()
    ensures Underscored("blocked_v4") && Underscored("blocked_v6") && Underscored("trusted_v4") && Underscored("trusted_v6")
    ensures Underscored("wg_bootstrap_v4") && Underscored("wg_bootstrap_v6")
  {
    hide Underscored;
    SetNameChars(Blocked4);
    SetNameChars(Blocked6);
    SetNameChars(Trusted4);
    SetNameChars(Trusted6);
    SetNameChars(Bootstrap4);
    SetNameChars(Bootstrap6);
  }

  lemma NetworkSetTexts()
    ensures Underscored("docker_nets") && Underscored("docker_nets6") && Underscored("docker_nets_nat")
  {
    assert "docker_nets"[6] == '_' && "docker_nets6"[6] == '_' && "docker_nets_nat"[6] == '_';
  }

  lemma BlockSetsFine(g: Generation)
    requires SpellingOk(g.spelling)
    ensures var sp, i := g.spelling, g.input;
      FineLines(SetLines("blocked_v4", "ipv4_addr", Spelled(i.blocked4, sp), false)
      + SetLines("blocked_v6", "ipv6_addr", Spelled(i.blocked6, sp), false)
      + SetLines("trusted_v4", "ipv4_addr", [], true)
      + SetLines("trusted_v6", "ipv6_addr", [], true))
  {
    hide SpellingOk, Underscored, FineLines, SetLines;
    SetTexts();
    var sp, i := g.spelling, g.input;
    assert Spelled([], sp) == [];
    SetLinesFine("blocked_v4", "ipv4_addr", i.blocked4, false, sp);
    SetLinesFine("blocked_v6", "ipv6_addr", i.blocked6, false, sp);
    SetLinesFine("trusted_v4", "ipv4_addr", [], true, sp);
    SetLinesFine("trusted_v6", "ipv6_addr", [], true, sp);
    var a := SetLines("blocked_v4", "ipv4_addr", Spelled(i.blocked4, sp), false);
    var b := SetLines("blocked_v6", "ipv6_addr", Spelled(i.blocked6, sp), false);
    FineAppend(a, b);
    FineAppend(a + b, SetLines("trusted_v4", "ipv4_addr", [], true));
    FineAppend(a + b + SetLines("trusted_v4", "ipv4_addr", [], true), SetLines("trusted_v6", "ipv6_addr", [], true));
  }

  lemma AllSetsFine(g: Generation)
    requires SpellingOk(g.spelling)
    ensures FineLines(AllSets(g))
  {
    hide SpellingOk, Underscored, FineLines, SetLines;
    SetTexts();
    NetworkSetTexts();
    BlockSetsFine(g);
    var sp, i := g.spelling, g.input;
    SetLinesFine("wg_bootstrap_v4", "ipv4_addr", i.bootstrap4, false, sp);
    SetLinesFine("wg_bootstrap_v6", "ipv6_addr", i.bootstrap6, false, sp);
    SetLinesFine("docker_nets", "ipv4_addr", g.docker4, false, sp);
    SetLinesFine("docker_nets6", "ipv6_addr", g.docker6, false, sp);
    var first := SetLines("blocked_v4", "ipv4_addr", Spelled(i.blocked4, sp), false)
      + SetLines("blocked_v6", "ipv6_addr", Spelled(i.blocked6, sp), false)
      + SetLines("trusted_v4", "ipv4_addr", [], true)
      + SetLines("trusted_v6", "ipv6_addr", [], true);
    var a := SetLines("wg_bootstrap_v4", "ipv4_addr", Spelled(i.bootstrap4, sp), false);
    var b := SetLines("wg_bootstrap_v6", "ipv6_addr", Spelled(i.bootstrap6, sp), false);
    var c := SetLines("docker_nets", "ipv4_addr", Spelled(g.docker4, sp), false);
    FineAppend(first, a);
    FineAppend(first + a, b);
    FineAppend(first + a + b, c);
    FineAppend(first + a + b + c, SetLines("docker_nets6", "ipv6_addr", Spelled(g.docker6, sp), false));
  }

  lemma HookMild(h: Hook)
    ensures MildWord(HookText(h))
  {
    HookWords();
  }

  lemma ChainHeadFine(h: Hook)
    ensures MildTokens(WordTokens(["chain", HookText(h), "{"]))
    ensures MildTokens(WordTokens(["type", "filter", "hook", HookText(h), "priority", "filter;", "policy", "drop;"]))
  {
    hide MildWord, MildTokens, WordTokens, HookText;
    HookWords();
    HookMild(h);
    PolicyWords();
    TransportWords();
    BraceWords();
    ThreeMild("chain", HookText(h), "{");
    WordTokensMild(["type", "filter", "hook", HookText(h), "priority", "filter;", "policy", "drop;"]);
  }

  lemma ChainRulesFit(in_: Input, h: Hook)
    requires Faithful(in_.e)
    ensures RulesFit(LayersFor(in_, h).Rules(), in_)
  {
    hide Faithful, RulesFit, InputLayers, OutputLayers, ForwardLayers;
    InputFits(in_);
    OutputFits(in_);
    ForwardFits(in_);
  }

  lemma BaseChainFine(g: Generation, h: Hook)
    requires Faithful(g.input.e) && SpellingOk(g.spelling)
    ensures FineLines(BaseChain(g, h))
  {
    hide Faithful, SpellingOk, RulesFit, LayersFor, HookText, MildTokens, RuleTokens;
    ChainHeadFine(h);
    ChainRulesFit(g.input, h);
    ClosingFine();
    var rules := LayersFor(g.input, h).Rules();
    RuleLinesFine(g.input, rules, HookText(h), g.spelling);
    var head := [Statement(4, WordTokens(["chain", HookText(h), "{"])),
      Statement(8, WordTokens(["type", "filter", "hook", HookText(h), "priority", "filter;", "policy", "drop;"]))];
    assert FineLines(head);
    hide FineLines;
    FineAppend(head, RuleLines(rules, HookText(h), g.spelling));
    FineAppend(head + RuleLines(rules, HookText(h), g.spelling), [CLOSE]);
  }

  lemma FilterTableFine(g: Generation)
    requires Faithful(g.input.e) && SpellingOk(g.spelling)
    ensures FineLines(FilterTable(g))
  {
    hide Faithful, SpellingOk, FineLines, AllSets, BaseChain;
    var opening := TableLine(ScriptGuard.OWNED[0]);
    OpeningFine(ScriptGuard.OWNED[0]);
    AllSetsFine(g);
    BaseChainFine(g, InputHook);
    BaseChainFine(g, OutputHook);
    BaseChainFine(g, ForwardHook);
    ClosingFine();
    FineAppend([opening], AllSets(g));
    FineAppend([opening] + AllSets(g), BaseChain(g, InputHook));
    FineAppend([opening] + AllSets(g) + BaseChain(g, InputHook), BaseChain(g, OutputHook));
    FineAppend([opening] + AllSets(g) + BaseChain(g, InputHook) + BaseChain(g, OutputHook), BaseChain(g, ForwardHook));
    FineAppend([opening] + AllSets(g) + BaseChain(g, InputHook) + BaseChain(g, OutputHook) + BaseChain(g, ForwardHook), [CLOSE_TABLE]);
  }

  // ---- The NAT table ----

  predicate NatRuleOk(r: NatRule, c: Config) {
    && NameOk(r.name) && Declares(c.interfaces, r.external)
    && (r.protocol.Tcp? || r.protocol.Udp?)
    && 1 <= r.externalPort <= 65535 && 1 <= r.destinationPort <= 65535
    && r.destination < 0x1_0000_0000
  }

  predicate SourcesMild(sources: seq<seq<Token>>) {
    forall i :: 0 <= i < |sources| ==> MildTokens(sources[i])
  }

  lemma {:induction false} V4SourcesMild(in_: Input, ss: seq<Selector>, sp: Spelling)
    requires SelectorsFit(ss, in_) && SpellingOk(sp)
    ensures SourcesMild(V4Sources(ss, sp))
  {
    hide SpellingOk, ClausesFit, MildTokens, ClauseTokens;
    if ss != [] {
      V4SourcesMild(in_, ss[1..], sp);
      ClausesMild(in_, ss[0].matches, ss[0].matches, sp);
    }
  }

  lemma NatSourcesMild(r: NatRule, g: Generation)
    requires Faithful(g.input.e) && SpellingOk(g.spelling)
    ensures SourcesMild(NatSources(r, g))
  {
    var ss := ZoneSelectors(r.source, false, g.input.e);
    var sources := V4Sources(ss, g.spelling);
    ZoneSelectorsFit(g.input, r.source, false, g.input.e);
    NothingMild();
    SortMembers(sources, (ts: seq<Token>) => KeptTokens(ts));
    hide Faithful, SpellingOk, MildTokens, ZoneSelectors, V4Sources, SelectorsFit, SortBy;
    V4SourcesMild(g.input, ss, g.spelling);
    forall i | 0 <= i < |NatSources(r, g)| ensures MildTokens(NatSources(r, g)[i]) {
      assert NatSources(r, g)[i] == [] || NatSources(r, g)[i] in sources;
    }
  }

  lemma NatTokensMild(r: NatRule, source: seq<Token>, c: Config)
    requires Validated(c) && NatRuleOk(r, c) && MildTokens(source)
    ensures MildTokens(NatTokens(r, source))
  {
    hide Validated, MildTokens, MildWord, NameFits, Decimal, Dotted, NameOk, Declares, WordTokens;
    LinkWords();
    EffectWords();
    DeclaredFits(c, r.external);
    QuotedName("iifname", r.external);
    NatTargetMild(r);
    NatCommentFits(r.name);
    QuotedName("comment", "nftfw-nat:" + r.name);
    var external := [Word("iifname"), Str(r.external, "")];
    MildAppend(external, source);
    var front := if |source| > 2 && source[..2] == external then source else external + source;
    MildAppend(front, NatTarget(r));
    MildAppend(front + NatTarget(r), [Word("comment"), Str("nftfw-nat:" + r.name, "")]);
  }

  lemma NatCommentFits(name: string)
    requires NameOk(name)
    ensures NameFits("nftfw-nat:" + name)
  {
    NameIsPlain(name);
  }

  lemma NatTargetMild(r: NatRule)
    ensures MildTokens(NatTarget(r))
  {
    hide MildTokens, MildWord, Decimal, Dotted, WordTokens;
    TransportWords();
    NatWords();
    DecimalIsMild(r.externalPort);
    DottedIsMild(r.destination, r.destinationPort);
    WordTokensMild([if r.protocol.Tcp? then "tcp" else "udp", "dport", Decimal(r.externalPort),
      "dnat", "to", Dotted(r.destination) + ":" + Decimal(r.destinationPort)]);
  }

  lemma {:induction false} NatLinesFine(rs: seq<NatRule>, g: Generation)
    requires Faithful(g.input.e) && SpellingOk(g.spelling)
    requires forall i :: 0 <= i < |rs| ==> NatRuleOk(rs[i], g.input.e.config)
    ensures FineLines(NatLines(rs, g))
  {
    if rs != [] {
      assert Validated(g.input.e.config);
      hide Faithful, SpellingOk, NatRuleOk, MildTokens, NatTokens, NatSources, Validated;
      NatLinesFine(rs[1..], g);
      NatSourcesMild(rs[0], g);
      var sources := NatSources(rs[0], g);
      forall k | 0 <= k < |sources| ensures FineLine(NatRuleLines(rs[0], sources)[k]) {
        NatTokensMild(rs[0], sources[k], g.input.e.config);
      }
      FineAppend(NatRuleLines(rs[0], sources), NatLines(rs[1..], g));
    }
  }

  lemma SpelledIsMild(p: Prefix, sp: Spelling)
    requires SpellingOk(sp)
    ensures MildWord(sp.prefix(p))
  {
    PrefixIsMild(sp.prefix(p));
  }

  lemma MasqueradeNoteFits(link: string)
    requires NameFits(link)
    ensures NameFits("nftfw:vpn-only-nat:" + link)
  {
  }

  lemma MasqueradeMild(b: Binding, vpn: string, sp: Spelling)
    requires NameFits(b.link) && NameFits(vpn) && SpellingOk(sp)
    ensures MildTokens(MasqueradeTokens(b, vpn, sp))
  {
    hide SpellingOk, MildTokens, MildWord, NameFits, WordTokens, ScriptGuard.PrefixText;
    SpelledIsMild(b.prefix, sp);
    MasqueradeNoteFits(b.link);
    LinkWords();
    NatWords();
    EffectWords();
    QuotedName("iifname", b.link);
    QuotedName("oifname", vpn);
    QuotedName("comment", "nftfw:vpn-only-nat:" + b.link);
    ThreeMild("ip", "saddr", sp.prefix(b.prefix));
    OneMild("masquerade");
    var from := [Word("iifname"), Str(b.link, "")];
    var to := [Word("oifname"), Str(vpn, "")];
    var source := WordTokens(["ip", "saddr", sp.prefix(b.prefix)]);
    MildAppend(from, source);
    MildAppend(from + source, to);
    MildAppend(from + source + to, [Word("masquerade")]);
    MildAppend(from + source + to + [Word("masquerade")], [Word("comment"), Str("nftfw:vpn-only-nat:" + b.link, "")]);
  }

  lemma {:induction false} MasqueradesFine(bs: seq<Binding>, vpn: string, sp: Spelling)
    requires BindingsFit(bs) && NameFits(vpn) && SpellingOk(sp)
    ensures FineLines(Masquerades(bs, vpn, sp))
  {
    hide SpellingOk, NameFits, MildTokens, MasqueradeTokens;
    if bs != [] {
      MasqueradesFine(bs[1..], vpn, sp);
      MasqueradeMild(bs[0], vpn, sp);
    }
  }

  lemma PreroutingFine()
    ensures FineLines(PREROUTING)
  {
    hide MildTokens, MildWord, WordTokens;
    NatChainWords();
    HookWords();
    PolicyWords();
    TransportWords();
    EffectWords();
    BraceWords();
    CounterCommentMild();
    ThreeMild("chain", "prerouting", "{");
    WordTokensMild(["type", "nat", "hook", "prerouting", "priority", "dstnat;", "policy", "accept;"]);
  }

  lemma DnatNoteFits()
    ensures NameFits("nftfw:dnat-chain")
  {
  }

  lemma CounterCommentMild()
    ensures MildTokens([Word("counter"), Word("comment"), Str("nftfw:dnat-chain", "")])
  {
    hide MildTokens, MildWord, NameFits;
    EffectWords();
    DnatNoteFits();
    OneMild("counter");
    QuotedName("comment", "nftfw:dnat-chain");
    MildAppend([Word("counter")], [Word("comment"), Str("nftfw:dnat-chain", "")]);
    assert [Word("counter")] + [Word("comment"), Str("nftfw:dnat-chain", "")] ==
      [Word("counter"), Word("comment"), Str("nftfw:dnat-chain", "")];
  }

  lemma PostroutingFine()
    ensures FineLines(POSTROUTING)
  {
    hide MildTokens, MildWord, WordTokens;
    NatChainWords();
    HookWords();
    PolicyWords();
    TransportWords();
    BraceWords();
    ThreeMild("chain", "postrouting", "{");
    WordTokensMild(["type", "nat", "hook", "postrouting", "priority", "srcnat;", "policy", "accept;"]);
  }

  lemma NatTableFine(g: Generation)
    requires GenerationOk(g)
    ensures FineLines(NatTable(g))
  {
    var c, sp := g.input.e.config, g.spelling;
    var rules := SortBy(g.nat_, (r: NatRule) => r.name);
    SortMembers(g.nat_, (r: NatRule) => r.name);
    assert forall i :: 0 <= i < |rules| ==> rules[i] in g.nat_;
    ContainerBindingsFit(c);
    EndsFit(c);
    hide Faithful, SpellingOk, NatRuleOk, NameFits, FineLines, SetLines, NatLines, Masquerades, ContainerBindings, Underscored;
    NatLinesFine(rules, g);
    NetworkSetTexts();
    OpeningFine(ScriptGuard.OWNED[1]);
    SetLinesFine("docker_nets_nat", "ipv4_addr", g.docker4, false, sp);
    PreroutingFine();
    PostroutingFine();
    MasqueradesFine(ContainerBindings(c), c.vpn, sp);
    ClosingFine();
    var a := [TableLine(ScriptGuard.OWNED[1])] + SetLines("docker_nets_nat", "ipv4_addr", Spelled(g.docker4, sp), false);
    FineAppend([TableLine(ScriptGuard.OWNED[1])], SetLines("docker_nets_nat", "ipv4_addr", Spelled(g.docker4, sp), false));
    FineAppend(a, PREROUTING);
    FineAppend(a + PREROUTING, NatLines(rules, g));
    var b := a + PREROUTING + NatLines(rules, g);
    FineAppend(b, [CLOSE]);
    FineAppend(b + [CLOSE], POSTROUTING);
    FineAppend(b + [CLOSE] + POSTROUTING, Masquerades(ContainerBindings(c), c.vpn, sp));
    var d := b + [CLOSE] + POSTROUTING + Masquerades(ContainerBindings(c), c.vpn, sp);
    FineAppend(d, [CLOSE]);
    FineAppend(d + [CLOSE], [CLOSE_TABLE]);
  }

  // ---- The ip6 table ----

  lemma Ip6HeadMild(h: Hook)
    ensures MildTokens(WordTokens(["chain", HookText(h), "{", "type", "filter", "hook", HookText(h), "priority", "-300;", "policy", "drop;"]))
  {
    hide MildTokens, MildWord, WordTokens, HookText;
    HookWords();
    HookMild(h);
    PolicyWords();
    TransportWords();
    BraceWords();
    ModeWords();
    WordTokensMild(["chain", HookText(h), "{", "type", "filter", "hook", HookText(h), "priority", "-300;", "policy", "drop;"]);
  }

  lemma Ip6RulesFit(in_: Input, h: Hook)
    ensures RulesFit(Ip6Rules(h), in_)
  {
    assert NameFits("lo");
  }

  lemma Ip6ChainFine(in_: Input, h: Hook, sp: Spelling)
    requires SpellingOk(sp)
    ensures FineLines(Ip6Chain(h, sp))
  {
    hide SpellingOk, RulesFit, HookText, MildTokens, RuleTokens, Ip6Rules;
    Ip6HeadMild(h);
    Ip6RulesFit(in_, h);
    ClosingFine();
    RuleLinesFine(in_, Ip6Rules(h), "ip6-" + HookText(h), sp);
    var tokens := WordTokens(["chain", HookText(h), "{", "type", "filter", "hook", HookText(h), "priority", "-300;", "policy", "drop;"]);
    OneFine(4, tokens);
    hide FineLines;
    FineAppend([Statement(4, tokens)], RuleLines(Ip6Rules(h), "ip6-" + HookText(h), sp));
    FineAppend([Statement(4, tokens)] + RuleLines(Ip6Rules(h), "ip6-" + HookText(h), sp), [CLOSE]);
  }

  lemma ModeCommentMild(m: Ipv6Mode)
    requires !m.OtherMode?
    ensures MildTokens([Str("nftfw:ipv6-mode-" + ModeText(m), ";"), Word("}")])
  {
    BraceIsMild();
    QuotedIsMild("nftfw:ipv6-mode-" + ModeText(m), ";");
  }

  lemma ModeMarkerFine(m: Ipv6Mode)
    requires !m.OtherMode?
    ensures FineLines(ModeMarker(m))
  {
    hide MildTokens, MildWord, WordTokens, ModeText;
    HookWords();
    EffectWords();
    ModeWords();
    BraceWords();
    ModeCommentMild(m);
    WordTokensMild(["chain", "mode_marker", "{", "comment"]);
    MildAppend(WordTokens(["chain", "mode_marker", "{", "comment"]), [Str("nftfw:ipv6-mode-" + ModeText(m), ";"), Word("}")]);
  }

  lemma Ip6TableFine(g: Generation)
    requires GenerationOk(g)
    ensures FineLines(Ip6Table(g))
  {
    var mode, sp := g.input.e.config.ipv6, g.spelling;
    assert Validated(g.input.e.config);
    assert !mode.OtherMode?;
    hide Validated, Faithful, SpellingOk, NatRuleOk, FineLines, ModeMarker, Ip6Chain;
    var opening := [TableLine(ScriptGuard.OWNED[2])];
    OpeningFine(ScriptGuard.OWNED[2]);
    ClosingFine();
    Ip6ChainFine(g.input, InputHook, sp);
    Ip6ChainFine(g.input, OutputHook, sp);
    Ip6ChainFine(g.input, ForwardHook, sp);
    ModeMarkerFine(mode);
    FineAppend(Ip6Chain(InputHook, sp), Ip6Chain(OutputHook, sp));
    FineAppend(Ip6Chain(InputHook, sp) + Ip6Chain(OutputHook, sp), Ip6Chain(ForwardHook, sp));
    var body := if mode.Disabled? then Ip6Chain(InputHook, sp) + Ip6Chain(OutputHook, sp) + Ip6Chain(ForwardHook, sp) else ModeMarker(mode);
    FineAppend(opening, body);
    FineAppend(opening + body, [CLOSE_TABLE]);
  }

  // ---- The script ----

  /** What the compiler is given: a validated configuration, and texts that name what they should. */
  ghost predicate GenerationOk(g: Generation) {
    && Faithful(g.input.e) && SpellingOk(g.spelling)
    && (forall i :: 0 <= i < |g.nat_| ==> NatRuleOk(g.nat_[i], g.input.e.config))
    && ScriptGuard.PieceOk(ScriptGuard.Comment(g.checksum))
  }

  lemma NoteFine(t: string)
    requires ScriptGuard.PieceOk(ScriptGuard.Comment(t))
    ensures FineLine(Remark(t))
  {
  }

  lemma TwoNotes(a: string, b: string)
    requires FineLine(Remark(a)) && FineLine(Remark(b))
    ensures FineLine(Remark(a + b))
  {
  }

  lemma InterpreterNoteFine()
    ensures FineLine(Remark("!/usr/sbin/nft -f"))
  {
  }

  lemma OwnedNoteFine()
    ensures FineLine(Remark(" nftfw transaction; owned"))
  {
  }

  lemma OnlyNoteFine()
    ensures FineLine(Remark(" tables only; global rule"))
  {
  }

  lemma OmittedNoteFine()
    ensures FineLine(Remark("set replacement omitted"))
  {
  }

  lemma FixedNotesFine()
    ensures FineLine(Remark("!/usr/sbin/nft -f"))
    ensures FineLine(Remark(" nftfw transaction; owned" + " tables only; global rule" + "set replacement omitted"))
  {
    hide FineLine;
    InterpreterNoteFine();
    OwnedNoteFine();
    OnlyNoteFine();
    OmittedNoteFine();
    TwoNotes(" nftfw transaction; owned", " tables only; global rule");
    TwoNotes(" nftfw transaction; owned" + " tables only; global rule", "set replacement omitted");
  }

  lemma GenerationNoteFine(n: nat)
    ensures FineLine(Remark(" generation: " + Decimal(n)))
  {
    hide Decimal;
    NoteFine(" generation: " + Decimal(n));
  }

  lemma ChecksumNoteFine(checksum: string)
    requires ScriptGuard.PieceOk(ScriptGuard.Comment(checksum))
    ensures FineLine(Remark(" policy checksum: " + checksum))
  {
    NoteFine(" policy checksum: " + checksum);
  }

  lemma HeaderFine(g: Generation)
    requires ScriptGuard.PieceOk(ScriptGuard.Comment(g.checksum))
    ensures FineLines(Header(g))
  {
    hide Decimal, FineLine;
    FixedNotesFine();
    GenerationNoteFine(g.number);
    ChecksumNoteFine(g.checksum);
  }

  lemma LinesFine(g: Generation)
    requires GenerationOk(g)
    ensures FineLines(Lines(g))
  {
    HeaderFine(g);
    hide Faithful, SpellingOk, NatRuleOk, FineLines, Header, FilterTable, NatTable, Ip6Table;
    ClosingFine();
    FilterTableFine(g);
    NatTableFine(g);
    Ip6TableFine(g);
    var gap := [EMPTY_LINE];
    FineAppend(Header(g), gap);
    FineAppend(Header(g) + gap, FilterTable(g));
    FineAppend(Header(g) + gap + FilterTable(g), gap);
    FineAppend(Header(g) + gap + FilterTable(g) + gap, NatTable(g));
    FineAppend(Header(g) + gap + FilterTable(g) + gap + NatTable(g), gap);
    FineAppend(Header(g) + gap + FilterTable(g) + gap + NatTable(g) + gap, Ip6Table(g));
  }

  lemma NotBlank(g: Generation)
    ensures !ScriptGuard.AllBlank(CompiledText(g))
  {
    hide FilterTable, NatTable, Ip6Table;
    var ls := Lines(g);
    assert ls[0] == Remark("!/usr/sbin/nft -f");
    assert LineText(ls[0])[0] == '#';
    assert CompiledText(g)[0] == '#';
  }

  /** Every generation compiled from a validated configuration is accepted. */
  lemma CompiledIsAccepted(g: Generation)
    requires GenerationOk(g)
    ensures ScriptGuard.Accepts(CompiledText(g))
  {
    hide GenerationOk, FineLines, Lines, ScriptGuard.AcceptsText, ScriptGuard.AllBlank;
    LinesFine(g);
    FineLinesAreAccepted(Lines(g));
    NotBlank(g);
    ScriptGuard.AcceptsBoth(CompiledText(g));
  }

  /** And stays accepted when the owned tables that exist are destroyed first. */
  lemma ReplacementIsAccepted(g: Generation, existing: set<ScriptGuard.Table>)
    requires GenerationOk(g)
    ensures ScriptGuard.Accepts(ScriptGuard.WithDestroys(CompiledText(g), ScriptGuard.OWNED, existing))
  {
    hide GenerationOk, ScriptGuard.Accepts, CompiledText, ScriptGuard.AllBlank;
    CompiledIsAccepted(g);
    NotBlank(g);
    ScriptGuard.DestroysAreTransparent(CompiledText(g), ScriptGuard.OWNED, existing);
  }
}
