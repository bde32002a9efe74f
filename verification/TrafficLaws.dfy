/**
 The chains' meaning in terms of the configuration's own lists: which policies let a packet in, out or
 through, which identity a packet's connection is given, and which packets are clamped.
 */
module TrafficLaws {
  import opened MarkBits
  import opened PolicyModel
  import opened PacketRules
  import opened PolicyCompiler
  import opened PolicyMeaning
  import opened TrafficGuarantees

  // ---- Zones and services by name ----

  predicate Belongs(c: Config, z: Zone, link: string) {
    link in z.interfaces || exists i :: 0 <= i < |c.interfaces| && c.interfaces[i].zone == z.name && c.interfaces[i].name == link
  }

  predicate HasMembers(c: Config, z: Zone) {
    z.interfaces != [] || exists i :: 0 <= i < |c.interfaces| && c.interfaces[i].zone == z.name
  }

  /** One of the zone's networks and, where it has any, one of its interfaces; a zone with neither holds nothing. */
  predicate ZoneHolds(c: Config, z: Zone, destination: bool, p: Packet, tunnelled: bool) {
    && (z.networks != [] || HasMembers(c, z))
    && (z.networks != [] ==> InNetworks(z.networks, EndOf(p, destination), tunnelled))
    && (HasMembers(c, z) ==> Belongs(c, z, LinkOf(p, destination)))
  }

  predicate ZoneTakes(c: Config, name: string, destination: bool, p: Packet, tunnelled: bool) {
    && name != "host"
    && (name == "any" || exists k :: 0 <= k < |c.zones| && c.zones[k].name == name && ZoneHolds(c, c.zones[k], destination, p, tunnelled))
  }

  predicate ServiceTakes(c: Config, name: string, p: Packet) {
    exists k :: 0 <= k < |c.services| && c.services[k].name == name && ServiceCovers(c.services[k], p)
  }

  /** A policy of this action from a zone, or from anywhere, to the host. */
  predicate LetsIn(c: Config, q: Policy, p: Packet) {
    q.target == "host" && ServiceTakes(c, q.service, p) && ZoneTakes(c, q.source, false, p, true)
  }

  /** From the host, or from anywhere, to a zone; to anywhere only through the tunnel. */
  predicate LetsOut(c: Config, q: Policy, p: Packet) {
    && (q.source == "host" || q.source == "any") && ServiceTakes(c, q.service, p)
    && ZoneTakes(c, q.target, true, p, p.oif == c.vpn) && (q.target == "any" ==> p.oif == c.vpn)
  }

  /** Between zones; to anywhere only through the tunnel. */
  predicate LetsThrough(c: Config, q: Policy, p: Packet) {
    && ServiceTakes(c, q.service, p) && ZoneTakes(c, q.source, false, p, true)
    && ZoneTakes(c, q.target, true, p, true) && (q.target == "any" ==> p.oif == c.vpn)
  }

  predicate Concerns(c: Config, q: Policy, hook: Hook, p: Packet) {
    match hook
    case InputHook => LetsIn(c, q, p)
    case OutputHook => LetsOut(c, q, p)
    case ForwardHook => LetsThrough(c, q, p)
  }

  predicate SomePolicy(c: Config, action: PolicyAction, hook: Hook, p: Packet) {
    exists k :: 0 <= k < |c.policies| && c.policies[k].action == action && Concerns(c, c.policies[k], hook, p)
  }

  lemma ZoneByName(e: Effective, name: string, destination: bool, p: Packet, tunnelled: bool)
    requires Faithful(e)
    ensures Covered(e, name, destination, p, tunnelled) <==> ZoneTakes(e.config, name, destination, p, tunnelled)
  {
    var c := e.config;
    hide Validated, InNetworks;
    if name in e.zones {
      var k :| 0 <= k < |c.zones| && c.zones[k] == e.zones[name];
      assert forall l :: 0 <= l < |c.zones| && c.zones[l].name == name ==> c.zones[l] == e.zones[name];
      assert HasMembers(c, c.zones[k]) <==> HasLinks(e, name);
      assert Belongs(c, c.zones[k], LinkOf(p, destination)) <==> LinkInZone(e, name, LinkOf(p, destination));
    } else {
      assert forall l :: 0 <= l < |c.zones| ==> c.zones[l].name != name;
    }
  }

  lemma ServiceByName(e: Effective, name: string, p: Packet)
    requires Faithful(e)
    ensures name in e.services && ServiceCovers(e.services[name], p) <==> ServiceTakes(e.config, name, p)
  {
    var c := e.config;
    hide Validated, ServiceCovers;
    if name in e.services {
      var k :| 0 <= k < |c.services| && c.services[k] == e.services[name];
    }
    assert forall l :: 0 <= l < |c.services| && c.services[l].name == name ==> name in e.services && c.services[l] == e.services[name];
  }

  lemma PolicyByName(e: Effective, q: Policy, hook: Hook, p: Packet)
    requires Faithful(e)
    ensures q.service in e.services && PolicyCovers(e, q, hook, p) <==> Concerns(e.config, q, hook, p)
  {
    ServiceByName(e, q.service, p);
    ZoneByName(e, q.source, false, p, true);
    ZoneByName(e, q.target, true, p, true);
    ZoneByName(e, q.target, true, p, p.oif == e.config.vpn);
    hide Faithful, Covered, ZoneTakes, ServiceCovers, ServiceTakes;
  }

  lemma DecidedMeans(e: Effective, hook: Hook, action: PolicyAction, p: Packet)
    requires Faithful(e)
    ensures Decided(e, hook, action, p) <==> SomePolicy(e.config, action, hook, p)
  {
    var c := e.config;
    forall k | 0 <= k < |c.policies| ensures DecidedBy(c.policies[k], e, hook, action, p) <==> c.policies[k].action == action && Concerns(c, c.policies[k], hook, p) {
      PolicyByName(e, c.policies[k], hook, p);
      hide Faithful, PolicyCovers, Concerns;
    }
    hide Faithful, DecidedBy, Concerns;
  }

  /** Accepted by the compiled chain of the hook. */
  predicate Accepts(in_: Input, hook: Hook, p: Packet, mark: bv32) {
    Evaluate(LayersFor(in_, hook).Rules(), p, mark).decision.Accepted?
  }

  /**
   What reaches the host: loopback, neighbor discovery, leased access to a trusted service, and otherwise
   only what no policy to the host denies and either answers on its own interface or, from an address that
   is not blocked, is allowed by a policy to the host.
   */
  lemma InputLaw(in_: Input, p: Packet, mark: bv32)
    requires Faithful(in_.e)
    ensures var c := in_.e.config;
      Accepts(in_, InputHook, p, mark) <==>
        && p.state != Invalid
        && (|| p.iif == "lo" || NeighborDiscovery(c, p) || Leased(in_, p)
            || (&& !(exists k :: 0 <= k < |c.policies| && c.policies[k].action == Deny && LetsIn(c, c.policies[k], p))
                && (|| ReplyOn(c, p.iif, p, mark)
                    || (&& !InSet(in_.blocked4, p.source) && !InSet(in_.blocked6, p.source)
                        && exists k :: 0 <= k < |c.policies| && c.policies[k].action == Allow && LetsIn(c, c.policies[k], p)))))
  {
    ChainsAreExact(in_, InputHook, p, mark);
    DecidedMeans(in_.e, InputHook, Allow, p);
    DecidedMeans(in_.e, InputHook, Deny, p);
    hide Faithful, Decided, LetsIn, Evaluate, InSet, ReplyOn, NeighborDiscovery, Leased;
  }

  /** A new packet that no lease and no fixed rule admits needs an allow policy to the host that covers it. */
  lemma NewInputLaw(in_: Input, p: Packet, mark: bv32)
    requires Faithful(in_.e) && p.state == New && p.iif != "lo"
    requires !NeighborDiscovery(in_.e.config, p) && !Leased(in_, p)
    ensures var c := in_.e.config;
      Accepts(in_, InputHook, p, mark) <==>
        && !InSet(in_.blocked4, p.source) && !InSet(in_.blocked6, p.source)
        && (forall k :: 0 <= k < |c.policies| && LetsIn(c, c.policies[k], p) ==> c.policies[k].action != Deny)
        && (exists k :: 0 <= k < |c.policies| && LetsIn(c, c.policies[k], p) && c.policies[k].action == Allow)
  {
    InputLaw(in_, p, mark);
    assert !ReplyOn(in_.e.config, p.iif, p, mark);
    hide Faithful, LetsIn, Accepts, InSet, ReplyOn, NeighborDiscovery, Leased;
  }

  /**
   What is forwarded: replies on their own interface, and what is not bound for the uplink, touches no
   blocked address, is denied by no policy between zones and allowed by one.
   */
  lemma ForwardLaw(in_: Input, p: Packet, mark: bv32)
    requires Faithful(in_.e)
    ensures var c := in_.e.config;
      Accepts(in_, ForwardHook, p, mark) <==>
        && p.state != Invalid
        && (|| ReplyOn(c, p.oif, p, mark)
            || (&& !InSet(in_.blocked4, p.source) && !InSet(in_.blocked6, p.source)
                && !InSet(in_.blocked4, p.destination) && !InSet(in_.blocked6, p.destination)
                && (forall i :: 0 <= i < |c.interfaces| && c.interfaces[i].role.Uplink? ==> c.interfaces[i].name != p.oif)
                && (forall k :: 0 <= k < |c.policies| && LetsThrough(c, c.policies[k], p) ==> c.policies[k].action != Deny)
                && (exists k :: 0 <= k < |c.policies| && LetsThrough(c, c.policies[k], p) && c.policies[k].action == Allow)))
  {
    ChainsAreExact(in_, ForwardHook, p, mark);
    DecidedMeans(in_.e, ForwardHook, Allow, p);
    DecidedMeans(in_.e, ForwardHook, Deny, p);
    OnUplink(in_.e.config, p.oif);
    hide Faithful, Decided, LetsThrough, Evaluate, InSet, ReplyOn, UplinkName;
  }

  /** The uplink's name is that of the one interface with the role. */
  lemma OnUplink(c: Config, link: string)
    requires Validated(c)
    ensures link == UplinkName(c.interfaces) <==> exists i :: 0 <= i < |c.interfaces| && c.interfaces[i].role.Uplink? && c.interfaces[i].name == link
  {
    var uplink := UplinkFacts(c);
    assert OneUplink(c.interfaces);
    hide Validated, UplinkName, OneUplink;
    OnlyUplink(c.interfaces, uplink, link);
  }

  lemma OnlyUplink(links: seq<Interface>, uplink: Interface, link: string)
    requires OneUplink(links) && uplink in links && uplink.role.Uplink?
    ensures link == uplink.name <==> exists i :: 0 <= i < |links| && links[i].role.Uplink? && links[i].name == link
  {
    var k :| 0 <= k < |links| && links[k] == uplink;
    forall i | 0 <= i < |links| && links[i].role.Uplink? ensures i == k {
    }
  }

  /**
   What leaves the host: loopback, replies on their own interface, errors into container subnets, address
   configuration, neighbor discovery, tunnel bootstrap traffic, and what goes to no blocked address, is
   denied by no policy from the host and allowed by one.
   */
  lemma OutputLaw(in_: Input, p: Packet, mark: bv32)
    requires Faithful(in_.e)
    ensures var c := in_.e.config;
      Accepts(in_, OutputHook, p, mark) <==>
        && p.state != Invalid
        && (|| p.oif == "lo" || ReplyOn(c, p.oif, p, mark) || PathError(c, p)
            || NeighborDiscovery(c, p) || DhcpV6(c, p) || Dhcp(c, p) || Bootstrap(in_, p)
            || (&& !InSet(in_.blocked4, p.destination) && !InSet(in_.blocked6, p.destination)
                && (forall k :: 0 <= k < |c.policies| && LetsOut(c, c.policies[k], p) ==> c.policies[k].action != Deny)
                && (exists k :: 0 <= k < |c.policies| && LetsOut(c, c.policies[k], p) && c.policies[k].action == Allow)))
  {
    ChainsAreExact(in_, OutputHook, p, mark);
    DecidedMeans(in_.e, OutputHook, Allow, p);
    DecidedMeans(in_.e, OutputHook, Deny, p);
    hide Faithful, Decided, LetsOut, Evaluate, InSet, ReplyOn, PathError, NeighborDiscovery, DhcpV6, Dhcp, Bootstrap;
  }

  // ---- The identity a connection is given ----

  lemma {:induction false} NoTagKeeps(rules: seq<Rule>, p: Packet, mark: bv32)
    requires forall i :: 0 <= i < |rules| ==> !rules[i].effect.Tag?
    ensures Evaluate(rules, p, mark).mark == mark
    decreases |rules|
  {
    hide AllHold;
    if rules != [] {
      NoTagKeeps(rules[1..], p, mark);
    }
  }

  lemma UniformKeeps(rules: seq<Rule>, e: Effect, p: Packet, mark: bv32)
    requires Uniform(rules, e) && !e.Tag?
    ensures Evaluate(rules, p, mark).mark == mark
  {
    NoTagKeeps(rules, p, mark);
  }

  /** Only the tags of a chain change the mark, and only for a packet that nothing before them decides. */
  lemma MarkOfChain(l: Layered, p: Packet, mark: bv32)
    requires l.Valid()
    ensures Evaluate(l.Rules(), p, mark).mark ==
      if Hit(l.guards, Drop, p, mark) || Hit(l.early, Accept, p, mark) then mark else Evaluate(l.tags, p, mark).mark
  {
    var rest := l.accepts + (l.denies + (l.replies + (l.blocks + (l.allows + [Rule([], Drop)]))));
    UniformSegment(l.guards, Drop, p, mark);
    UniformSegment(l.early, Accept, p, mark);
    TagsDecideNothing(l.tags, p, mark);
    EvaluateAppend(l.guards, l.early + (l.tags + rest), p, mark);
    EvaluateAppend(l.early, l.tags + rest, p, mark);
    EvaluateAppend(l.tags, rest, p, mark);
    NoTagKeeps(rest, p, Evaluate(l.tags, p, mark).mark);
  }

  /** The end of the packet that names the interface a connection is tagged for. */
  function TaggedEnd(kind: InterfaceRuleKind, p: Packet): string {
    if kind.TagIn? then p.iif else p.oif
  }

  lemma TagFiresExactly(kind: InterfaceRuleKind, i: Interface, p: Packet, mark: bv32)
    requires kind.TagIn? || kind.TagOut?
    ensures InterfaceRule(kind, i).effect == Tag(i.id)
    ensures AllHold(InterfaceRule(kind, i).matches, p, mark) <==> i.name == TaggedEnd(kind, p) && p.direction == Original && Reserved(mark) == 0
  {
    hide Reserved;
    var ms := InterfaceRule(kind, i).matches;
    assert |ms| == 3;
    assert AllHold(ms, p, mark) <==> Holds(ms[0], p, mark) && Holds(ms[1], p, mark) && Holds(ms[2], p, mark);
  }

  /** Tagging leaves the mark alone unless some interface is the packet's, and then takes that one's identity. */
  lemma {:induction false} TagsExactly(kind: InterfaceRuleKind, links: seq<Interface>, p: Packet, mark: bv32)
    requires (kind.TagIn? || kind.TagOut?) && (forall i :: 0 <= i < |links| ==> links[i].id != 0)
    ensures var m := Evaluate(InterfaceRules(kind, links), p, mark).mark;
      && (p.direction != Original || Reserved(mark) != 0 || (forall i :: 0 <= i < |links| ==> links[i].name != TaggedEnd(kind, p)) ==> m == mark)
      && (p.direction == Original && Reserved(mark) == 0 && (exists i :: 0 <= i < |links| && links[i].name == TaggedEnd(kind, p)) ==>
        exists i :: 0 <= i < |links| && links[i].name == TaggedEnd(kind, p) && m == Tagged(mark, links[i].id))
    decreases |links|
  {
    hide Reserved, Tagged, Encoded, AllHold, InterfaceRule;
    if links != [] {
      var rules, rest := InterfaceRules(kind, links), links[1..];
      assert rules[0] == InterfaceRule(kind, links[0]) && rules[1..] == InterfaceRules(kind, rest);
      TagFiresExactly(kind, links[0], p, mark);
      TaggedKeeps(mark, links[0].id);
      EncodedIsInjective(links[0].id, 0);
      assert forall i :: 0 <= i < |rest| ==> rest[i] == links[i + 1];
      hide TaggedEnd, InterfaceRules;
      if links[0].name == TaggedEnd(kind, p) && p.direction == Original && Reserved(mark) == 0 {
        TagsExactly(kind, rest, p, Tagged(mark, links[0].id));
        assert Evaluate(rules, p, mark).mark == Tagged(mark, links[0].id);
      } else {
        TagsExactly(kind, rest, p, mark);
        assert Evaluate(rules, p, mark) == Evaluate(InterfaceRules(kind, rest), p, mark);
        hide Evaluate;
        if p.direction == Original && Reserved(mark) == 0 && exists i :: 0 <= i < |links| && links[i].name == TaggedEnd(kind, p) {
          var i :| 0 <= i < |links| && links[i].name == TaggedEnd(kind, p);
          assert rest[i - 1].name == TaggedEnd(kind, p);
          var j :| 0 <= j < |rest| && rest[j].name == TaggedEnd(kind, p) && Evaluate(rules, p, mark).mark == Tagged(mark, rest[j].id);
          assert links[j + 1] == rest[j];
        }
      }
    }
  }

  /** A valid packet in the original direction that the chain does not accept at once as loopback. */
  predicate Taggable(hook: Hook, p: Packet) {
    p.state != Invalid && p.direction == Original && (hook.InputHook? ==> p.iif != "lo")
  }

  /**
   Every such packet of a connection without an identity gives it that of the configured interface it came in
   on, or leaves the host by; every other packet leaves the whole mark alone.
   */
  lemma MarkLaw(in_: Input, hook: Hook, p: Packet, mark: bv32)
    requires Faithful(in_.e)
    ensures var c := in_.e.config; var link := if hook.OutputHook? then p.oif else p.iif;
      var m := Evaluate(LayersFor(in_, hook).Rules(), p, mark).mark;
      && (forall i :: 0 <= i < |c.interfaces| && c.interfaces[i].name == link && Taggable(hook, p) && Reserved(mark) == 0 ==>
        m == Tagged(mark, c.interfaces[i].id))
      && (!Taggable(hook, p) || Reserved(mark) != 0 || (forall i :: 0 <= i < |c.interfaces| ==> c.interfaces[i].name != link) ==> m == mark)
  {
    var c, l, kind := in_.e.config, LayersFor(in_, hook), if hook.OutputHook? then TagOut else TagIn;
    var links := SortedInterfaces(c.interfaces);
    LayersValid(in_, hook, p);
    GuardsExact(p, mark);
    NothingHits(Accept, p, mark);
    OneMatch(Iif("lo"), Accept, p, mark);
    assert Hit(l.guards, Drop, p, mark) <==> p.state == Invalid;
    assert Hit(l.early, Accept, p, mark) <==> hook.InputHook? && p.iif == "lo";
    assert l.tags == InterfaceRules(kind, links);
    SortedSame(c.interfaces);
    hide Hit, Uniform, Evaluate, InterfaceRules, SortedInterfaces, LayersFor, Reserved, Tagged;
    MarkOfChain(l, p, mark);
    hide Layered.Rules, Layered.Valid;
    forall i | 0 <= i < |links| ensures links[i].id != 0 && links[i] in c.interfaces {
      IdsAreOneToOne(c, links[i], links[i]);
    }
    TagsExactly(kind, links, p, mark);
    TagsOfConfig(c, links, kind, p, mark);
  }

  lemma TagsOfConfig(c: Config, links: seq<Interface>, kind: InterfaceRuleKind, p: Packet, mark: bv32)
    requires Validated(c) && (forall i :: i in links <==> i in c.interfaces)
    requires (kind.TagIn? || kind.TagOut?) && (forall i :: 0 <= i < |links| ==> links[i].id != 0)
    ensures var m := Evaluate(InterfaceRules(kind, links), p, mark).mark;
      && (forall i :: 0 <= i < |c.interfaces| && c.interfaces[i].name == TaggedEnd(kind, p) && p.direction == Original && Reserved(mark) == 0 ==>
        m == Tagged(mark, c.interfaces[i].id))
      && (p.direction != Original || Reserved(mark) != 0 || (forall i :: 0 <= i < |c.interfaces| ==> c.interfaces[i].name != TaggedEnd(kind, p)) ==> m == mark)
  {
    TagsExactly(kind, links, p, mark);
    hide Evaluate, InterfaceRules, Reserved, Tagged, TaggedEnd, Validated;
    var m := Evaluate(InterfaceRules(kind, links), p, mark).mark;
    forall i | 0 <= i < |c.interfaces| && c.interfaces[i].name == TaggedEnd(kind, p) && p.direction == Original && Reserved(mark) == 0
      ensures m == Tagged(mark, c.interfaces[i].id)
    {
      assert c.interfaces[i] in links;
      var k :| 0 <= k < |links| && links[k] == c.interfaces[i];
      assert links[k].name == TaggedEnd(kind, p);
      var j :| 0 <= j < |links| && links[j].name == TaggedEnd(kind, p) && m == Tagged(mark, links[j].id);
      assert links[j] in c.interfaces;
      IdsAreOneToOne(c, links[j], c.interfaces[i]);
    }
    if forall i :: 0 <= i < |c.interfaces| ==> c.interfaces[i].name != TaggedEnd(kind, p) {
      forall j | 0 <= j < |links| ensures links[j].name != TaggedEnd(kind, p) {
        assert links[j] in c.interfaces;
      }
    }
  }

  // ---- Segment sizes ----

  /** From a subnet of this container interface into the tunnel, or back. */
  predicate Crosses(i: Interface, prefix: Prefix, vpn: string, p: Packet) {
    || (p.iif == i.name && Contains(prefix, p.source) && p.oif == vpn)
    || (p.iif == vpn && p.oif == i.name && Contains(prefix, p.destination))
  }

  lemma GuardClamps(b: Binding, c: Config, p: Packet, mark: bv32)
    ensures Hit(BindingRules(Guards, b, c), Clamp(c.mss), p, mark) <==>
      && p.transport.TcpPacket? && p.syn
      && (|| (p.iif == b.link && Contains(b.prefix, p.source) && p.oif == c.vpn)
          || (p.iif == c.vpn && p.oif == b.link && Contains(b.prefix, p.destination)))
  {
    hide Contains, UplinkName;
    var rules := BindingRules(Guards, b, c);
    FourHold(rules[0].matches, p, mark);
    FourHold(rules[1].matches, p, mark);
    assert Hit(rules, Clamp(c.mss), p, mark) <==> Fires(rules[0], Clamp(c.mss), p, mark) || Fires(rules[1], Clamp(c.mss), p, mark);
  }

  /** The segment size is clamped on exactly the connection requests between a container subnet and the tunnel. */
  lemma ClampLaw(c: Config, p: Packet, mark: bv32)
    ensures Hit(AllBindingRules(Guards, ContainerBindings(c), c), Clamp(c.mss), p, mark) <==>
      && p.transport.TcpPacket? && p.syn
      && exists i, k ::
        && 0 <= i < |c.interfaces| && c.interfaces[i].role.Container? && 0 <= k < |c.interfaces[i].cidrs|
        && Crosses(c.interfaces[i], c.interfaces[i].cidrs[k], c.vpn, p)
  {
    var bs := ContainerBindings(c);
    hide ContainerBindings, BindingRules, Hit, Masked, Contains;
    BindingRulesHit(Guards, bs, c, Clamp(c.mss), p, mark);
    forall n | 0 <= n < |bs| && Hit(BindingRules(Guards, bs[n], c), Clamp(c.mss), p, mark)
      ensures p.transport.TcpPacket? && p.syn
      ensures exists i, k ::
        && 0 <= i < |c.interfaces| && c.interfaces[i].role.Container? && 0 <= k < |c.interfaces[i].cidrs|
        && Crosses(c.interfaces[i], c.interfaces[i].cidrs[k], c.vpn, p)
    {
      GuardClamps(bs[n], c, p, mark);
      BoundMeans(c, bs[n]);
      var i: nat, k: nat :| BindsAt(c.interfaces, i, k, bs[n]);
      MaskedContains(c.interfaces[i].cidrs[k], p.source);
      MaskedContains(c.interfaces[i].cidrs[k], p.destination);
      assert Crosses(c.interfaces[i], c.interfaces[i].cidrs[k], c.vpn, p);
    }
    forall i, k | 0 <= i < |c.interfaces| && c.interfaces[i].role.Container? && 0 <= k < |c.interfaces[i].cidrs|
        && Crosses(c.interfaces[i], c.interfaces[i].cidrs[k], c.vpn, p) && p.transport.TcpPacket? && p.syn
      ensures exists n :: 0 <= n < |bs| && Hit(BindingRules(Guards, bs[n], c), Clamp(c.mss), p, mark)
    {
      var b := Binding(c.interfaces[i].name, Masked(c.interfaces[i].cidrs[k]));
      assert BindsAt(c.interfaces, i, k, b);
      BoundMeans(c, b);
      MaskedContains(c.interfaces[i].cidrs[k], p.source);
      MaskedContains(c.interfaces[i].cidrs[k], p.destination);
      GuardClamps(b, c, p, mark);
      var n :| 0 <= n < |bs| && bs[n] == b;
    }
  }
}
