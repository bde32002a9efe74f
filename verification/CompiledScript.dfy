/**
 The text of a compiled generation: the same typed rules, written out line by line with the sets, the
 NAT table and the ip6 table around them. How a prefix is spelled and what a comment says are parameters.
 */
module CompiledScript {
  import opened Numerals
  import opened Texts
  import opened PolicyModel
  import opened PacketRules
  import opened PolicyCompiler
  import opened ScriptLines

  import ScriptGuard
  import MarkBits

  datatype NatRule = NatRule(
    name: string, source: string, external: string, protocol: Protocol,
    externalPort: nat, destination: nat, destinationPort: nat)

  /** How prefixes and the firewall mark are written, and the comment of each rule of a chain. */
  datatype Spelling = Spelling(prefix: Prefix -> string, mark: string, note: (string, nat) -> string)

  datatype Generation = Generation(
    input: Input, docker4: seq<Prefix>, docker6: seq<Prefix>, nat_: seq<NatRule>,
    number: nat, checksum: string, spelling: Spelling)

  // ---- Rules ----

  function Braced(values: seq<string>): seq<Token> {
    [Word("{")] + WordTokens(ScriptGuard.ElementWords(values)) + [Word("}")]
  }

  function SetText(n: SetName): string {
    match n
    case Blocked4 => "blocked_v4"
    case Blocked6 => "blocked_v6"
    case Trusted4 => "trusted_v4"
    case Trusted6 => "trusted_v6"
    case Bootstrap4 => "wg_bootstrap_v4"
    case Bootstrap6 => "wg_bootstrap_v6"
  }

  /** What a set holds. */
  function Holding(in_: Input, n: SetName): seq<Prefix> {
    match n
    case Blocked4 => in_.blocked4
    case Blocked6 => in_.blocked6
    case Trusted4 => in_.leases4
    case Trusted6 => in_.leases6
    case Bootstrap4 => in_.bootstrap4
    case Bootstrap6 => in_.bootstrap6
  }

  function SetFamily(n: SetName): Family {
    if n.Blocked4? || n.Trusted4? || n.Bootstrap4? then IPv4 else IPv6
  }

  function FamilyText(f: Family): string {
    if f.IPv4? then "ip" else "ip6"
  }

  function StateNames(s: set<CtState>): seq<string> {
    (if New in s then ["new"] else []) + (if Established in s then ["established"] else [])
      + (if Related in s then ["related"] else []) + (if Invalid in s then ["invalid"] else [])
      + (if Untracked in s then ["untracked"] else [])
  }

  function Commas(names: seq<string>): string {
    if names == [] then "" else if |names| == 1 then names[0] else names[0] + "," + Commas(names[1..])
  }

  function IcmpName(t: IcmpType): string {
    match t
    case DestinationUnreachable => "destination-unreachable"
    case PacketTooBig => "packet-too-big"
    case TimeExceeded => "time-exceeded"
    case ParameterProblem => "parameter-problem"
    case NeighborSolicit => "nd-neighbor-solicit"
    case NeighborAdvert => "nd-neighbor-advert"
    case RouterSolicit => "nd-router-solicit"
    case RouterAdvert => "nd-router-advert"
    case OtherIcmp(_) => ""
  }

  const ICMP_ORDER: seq<IcmpType> := [
    DestinationUnreachable, PacketTooBig, TimeExceeded, ParameterProblem,
    NeighborSolicit, NeighborAdvert, RouterSolicit, RouterAdvert]

  function Chosen(order: seq<IcmpType>, s: set<IcmpType>): (r: seq<IcmpType>)
    ensures forall t :: t in r <==> t in order && t in s
  {
    if order == [] then []
    else
      assert order == [order[0]] + order[1..];
      (if order[0] in s then [order[0]] else []) + Chosen(order[1..], s)
  }

  /** The types of a set in the order they are written. */
  function IcmpListed(s: set<IcmpType>): seq<IcmpType> {
    Chosen(ICMP_ORDER, s)
  }

  function IcmpNames(s: set<IcmpType>): (r: seq<string>)
    ensures |r| == |IcmpListed(s)| && forall i :: 0 <= i < |r| ==> r[i] == IcmpName(IcmpListed(s)[i])
  {
    var listed := IcmpListed(s);
    seq(|listed|, i requires 0 <= i < |listed| => IcmpName(listed[i]))
  }

  /** The transport that the port clauses of a rule are written with. */
  function TransportOf(ms: seq<Match>): Transport {
    if Carries(TcpPacket) in ms then TcpPacket else UdpPacket
  }

  function TransportText(ms: seq<Match>): string {
    if TransportOf(ms).TcpPacket? then "tcp" else "udp"
  }

  function IcmpOf(ms: seq<Match>): Transport {
    if Carries(Icmp6Packet) in ms then Icmp6Packet else IcmpPacket
  }

  function IcmpText(ms: seq<Match>): string {
    if IcmpOf(ms).Icmp6Packet? then "icmpv6" else "icmp"
  }

  function MarkedWith(v: bv32): seq<Token> {
    WordTokens(["ct", "mark", "&", "0xff000000", "==", Hex8(v)])
  }

  /** One clause of a rule; ms is the whole rule. */
  function MatchTokens(m: Match, ms: seq<Match>, sp: Spelling): seq<Token> {
    match m
    case Iif(n) => [Word("iifname"), Str(n, "")]
    case Oif(n) => [Word("oifname"), Str(n, "")]
    case Nf(f) => WordTokens(["meta", "nfproto", if f.IPv4? then "ipv4" else "ipv6"])
    case SourceIn(p) => WordTokens([FamilyText(FamilyOf(p.address)), "saddr", sp.prefix(p)])
    case DestinationIn(p) => WordTokens([FamilyText(FamilyOf(p.address)), "daddr", sp.prefix(p)])
    case SourceSet(n, _) => WordTokens([FamilyText(SetFamily(n)), "saddr", "@" + SetText(n)])
    case DestinationSet(n, _) => WordTokens([FamilyText(SetFamily(n)), "daddr", "@" + SetText(n)])
    case InState(s) => WordTokens(["ct", "state", Commas(StateNames(s))])
    case Directed(d) => WordTokens(["ct", "direction", if d.Original? then "original" else "reply"])
    case MarkByte(v) => MarkedWith(v)
    case FwMark(_) => WordTokens(["meta", "mark", sp.mark])
    case Carries(t) =>
      if t.IcmpPacket? then WordTokens(["meta", "l4proto", "icmp"])
      else if t.Icmp6Packet? then WordTokens(["meta", "l4proto", "ipv6-icmp"])
      else []
    case DstPort(ports) => WordTokens([TransportText(ms), "dport"]) + Braced(Numbers(Ascending(ports)))
    case DstPortIs(n) => WordTokens([TransportText(ms), "dport", Number(n)])
    case SrcPort(n) => WordTokens([TransportText(ms), "sport", Number(n)])
    case IcmpIs(types) => WordTokens([IcmpText(ms), "type"]) + Braced(IcmpNames(types))
    case HopLimit(n) => WordTokens(["ip6", "hoplimit", Decimal(n)])
    case SynOnly => WordTokens(["tcp", "flags", "syn"])
  }

  function ClauseTokens(ms: seq<Match>, all: seq<Match>, sp: Spelling): seq<Token> {
    if ms == [] then [] else MatchTokens(ms[0], all, sp) + ClauseTokens(ms[1..], all, sp)
  }

  function EffectTokens(e: Effect, unconditional: bool): seq<Token> {
    match e
    case Accept => [Word("accept")]
    case Drop => if unconditional then WordTokens(["counter", "drop"]) else [Word("drop")]
    case Count => [Word("counter")]
    case Clamp(n) => WordTokens(["tcp", "option", "maxseg", "size", "set", Decimal(n)])
    case Tag(id) => WordTokens(["ct", "mark", "set", "(ct", "mark", "&", "0x00ffffff)", "|", Hex8(MarkBits.Encoded(id)), "counter"])
  }

  function RuleTokens(r: Rule, note: string, sp: Spelling): seq<Token> {
    ClauseTokens(r.matches, r.matches, sp) + EffectTokens(r.effect, r.matches == []) + [Word("comment"), Str(note, "")]
  }

  function RuleLines(rules: seq<Rule>, chain: string, sp: Spelling): (r: seq<TextLine>)
    ensures |r| == |rules|
    ensures forall k :: 0 <= k < |rules| ==> r[k] == Statement(8, RuleTokens(rules[k], sp.note(chain, k), sp))
  {
    seq(|rules|, k requires 0 <= k < |rules| => Statement(8, RuleTokens(rules[k], sp.note(chain, k), sp)))
  }

  // ---- Tables ----

  const CLOSE_TABLE := Statement(0, [Word("}")])
  const CLOSE := Statement(4, [Word("}")])
  const EMPTY_LINE := Statement(0, [])

  function Spelled(ps: seq<Prefix>, sp: Spelling): (r: seq<string>)
    ensures |r| == |ps| && forall i :: 0 <= i < |ps| ==> r[i] == sp.prefix(ps[i])
  {
    seq(|ps|, i requires 0 <= i < |ps| => sp.prefix(ps[i]))
  }

  function SetHead(name: string, kind: string, timed: bool): seq<TextLine> {
    var flags := if timed then ["flags", "interval,", "timeout;"] else ["flags", "interval;"];
    [Statement(4, WordTokens(["set", name, "{"])),
     Statement(8, WordTokens(["type", kind + ";"]) + WordTokens(flags) + [Word("comment"), Str("nftfw-owned:" + name, "")])]
  }

  function SetElements(values: seq<string>): seq<TextLine> {
    if values == [] then []
    else [Statement(8, WordTokens(["elements", "="]) + Braced(SortBy(values, (x: string) => x)))]
  }

  function SetLines(name: string, kind: string, values: seq<string>, timed: bool): seq<TextLine> {
    SetHead(name, kind, timed) + SetElements(values) + [CLOSE]
  }

  function AllSets(g: Generation): seq<TextLine> {
    var sp, i := g.spelling, g.input;
    SetLines("blocked_v4", "ipv4_addr", Spelled(i.blocked4, sp), false)
      + SetLines("blocked_v6", "ipv6_addr", Spelled(i.blocked6, sp), false)
      + SetLines("trusted_v4", "ipv4_addr", [], true)
      + SetLines("trusted_v6", "ipv6_addr", [], true)
      + SetLines("wg_bootstrap_v4", "ipv4_addr", Spelled(i.bootstrap4, sp), false)
      + SetLines("wg_bootstrap_v6", "ipv6_addr", Spelled(i.bootstrap6, sp), false)
      + SetLines("docker_nets", "ipv4_addr", Spelled(g.docker4, sp), false)
      + SetLines("docker_nets6", "ipv6_addr", Spelled(g.docker6, sp), false)
  }

  function HookText(h: Hook): string {
    match h
    case InputHook => "input"
    case OutputHook => "output"
    case ForwardHook => "forward"
  }

  function BaseChain(g: Generation, h: Hook): seq<TextLine> {
    var name := HookText(h);
    [Statement(4, WordTokens(["chain", name, "{"])),
     Statement(8, WordTokens(["type", "filter", "hook", name, "priority", "filter;", "policy", "drop;"]))]
      + RuleLines(LayersFor(g.input, h).Rules(), name, g.spelling)
      + [CLOSE]
  }

  function FilterTable(g: Generation): seq<TextLine> {
    [TableLine(ScriptGuard.OWNED[0])] + AllSets(g)
      + BaseChain(g, InputHook) + BaseChain(g, OutputHook) + BaseChain(g, ForwardHook) + [CLOSE_TABLE]
  }

  /** What a NAT rule asks of the source: each IPv4 selector of its zone, or nothing. */
  function NatSources(r: NatRule, g: Generation): seq<seq<Token>> {
    if r.source == "any" then [[]]
    else
      var sources := V4Sources(ZoneSelectors(r.source, false, g.input.e), g.spelling);
      if sources == [] then [[]] else SortBy(sources, (ts: seq<Token>) => KeptTokens(ts))
  }

  function V4Sources(ss: seq<Selector>, sp: Spelling): seq<seq<Token>> {
    if ss == [] then []
    else if ss[0].family.IPv4? then [ClauseTokens(ss[0].matches, ss[0].matches, sp)] + V4Sources(ss[1..], sp)
    else V4Sources(ss[1..], sp)
  }

  function NatTarget(r: NatRule): seq<Token> {
    WordTokens([if r.protocol.Tcp? then "tcp" else "udp", "dport", Decimal(r.externalPort),
                "dnat", "to", Dotted(r.destination) + ":" + Decimal(r.destinationPort)])
  }

  /** The interface clause is not repeated when the source already starts with it. */
  function NatTokens(r: NatRule, source: seq<Token>): seq<Token> {
    var external := [Word("iifname"), Str(r.external, "")];
    (if |source| > 2 && source[..2] == external then source else external + source) + NatTarget(r)
      + [Word("comment"), Str("nftfw-nat:" + r.name, "")]
  }

  function NatRuleLines(r: NatRule, sources: seq<seq<Token>>): (ls: seq<TextLine>)
    ensures |ls| == |sources|
    ensures forall k :: 0 <= k < |sources| ==> ls[k] == Statement(8, NatTokens(r, sources[k]))
  {
    seq(|sources|, k requires 0 <= k < |sources| => Statement(8, NatTokens(r, sources[k])))
  }

  function NatLines(rs: seq<NatRule>, g: Generation): seq<TextLine> {
    if rs == [] then [] else NatRuleLines(rs[0], NatSources(rs[0], g)) + NatLines(rs[1..], g)
  }

  function MasqueradeTokens(b: Binding, vpn: string, sp: Spelling): seq<Token> {
    [Word("iifname"), Str(b.link, "")] + WordTokens(["ip", "saddr", sp.prefix(b.prefix)])
      + [Word("oifname"), Str(vpn, "")] + [Word("masquerade")] + [Word("comment"), Str("nftfw:vpn-only-nat:" + b.link, "")]
  }

  function Masquerades(bs: seq<Binding>, vpn: string, sp: Spelling): seq<TextLine> {
    if bs == [] then []
    else if bs[0].prefix.address.V4? then [Statement(8, MasqueradeTokens(bs[0], vpn, sp))] + Masquerades(bs[1..], vpn, sp)
    else Masquerades(bs[1..], vpn, sp)
  }

  const PREROUTING: seq<TextLine> :=
    [Statement(4, WordTokens(["chain", "prerouting", "{"])),
     Statement(8, WordTokens(["type", "nat", "hook", "prerouting", "priority", "dstnat;", "policy", "accept;"])),
     Statement(8, [Word("counter"), Word("comment"), Str("nftfw:dnat-chain", "")])]

  const POSTROUTING: seq<TextLine> :=
    [Statement(4, WordTokens(["chain", "postrouting", "{"])),
     Statement(8, WordTokens(["type", "nat", "hook", "postrouting", "priority", "srcnat;", "policy", "accept;"]))]

  function NatTable(g: Generation): seq<TextLine> {
    var c := g.input.e.config;
    [TableLine(ScriptGuard.OWNED[1])]
      + SetLines("docker_nets_nat", "ipv4_addr", Spelled(g.docker4, g.spelling), false)
      + PREROUTING + NatLines(SortBy(g.nat_, (r: NatRule) => r.name), g) + [CLOSE]
      + POSTROUTING + Masquerades(ContainerBindings(c), c.vpn, g.spelling) + [CLOSE]
      + [CLOSE_TABLE]
  }

  function ModeText(m: Ipv6Mode): string {
    match m
    case Disabled => "disabled"
    case VpnOnly => "vpn"
    case Native => "native"
    case OtherMode(x) => x
  }

  function Ip6Chain(h: Hook, sp: Spelling): seq<TextLine> {
    [Statement(4, WordTokens(["chain", HookText(h), "{", "type", "filter", "hook", HookText(h), "priority", "-300;", "policy", "drop;"]))]
      + RuleLines(Ip6Rules(h), "ip6-" + HookText(h), sp) + [CLOSE]
  }

  /** Where IPv6 is on the table only records the mode. */
  function ModeMarker(m: Ipv6Mode): seq<TextLine> {
    [Statement(4, WordTokens(["chain", "mode_marker", "{", "comment"]) + [Str("nftfw:ipv6-mode-" + ModeText(m), ";"), Word("}")])]
  }

  function Ip6Table(g: Generation): seq<TextLine> {
    var mode, sp := g.input.e.config.ipv6, g.spelling;
    [TableLine(ScriptGuard.OWNED[2])]
      + (if mode.Disabled? then Ip6Chain(InputHook, sp) + Ip6Chain(OutputHook, sp) + Ip6Chain(ForwardHook, sp)
         else ModeMarker(mode))
      + [CLOSE_TABLE]
  }

  // The fixed remark stands in pieces short enough to check letter by letter.
  function Header(g: Generation): seq<TextLine> {
    [Remark("!/usr/sbin/nft -f"),
     Remark(" nftfw transaction; owned" + " tables only; global rule" + "set replacement omitted"),
     Remark(" generation: " + Decimal(g.number)),
     Remark(" policy checksum: " + g.checksum)]
  }

  function Lines(g: Generation): seq<TextLine> {
    Header(g) + [EMPTY_LINE] + FilterTable(g) + [EMPTY_LINE] + NatTable(g) + [EMPTY_LINE] + Ip6Table(g)
  }

  function CompiledText(g: Generation): string {
    Text(Lines(g))
  }
}
