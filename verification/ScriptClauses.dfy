/** Every clause and rule the compiler can write is made of words the ownership validator ignores. */
module ScriptClauses {
  import opened Numerals
  import opened ProvenanceIds
  import opened PolicyModel
  import opened PacketRules
  import opened PolicyCompiler
  import opened ScriptLines
  import opened ScriptWords
  import opened CompiledScript

  import ScriptGuard
  import MarkBits

  // ---- The words the compiler uses ----

  predicate MildWord(w: string) {
    MildToken(Word(w))
  }

  predicate MildWords(ws: seq<string>) {
    forall i :: 0 <= i < |ws| ==> MildWord(ws[i])
  }

  lemma LinkWords()
    ensures MildWord("iifname") && MildWord("oifname") && MildWord("meta") && MildWord("nfproto")
    ensures MildWord("saddr") && MildWord("daddr") && MildWord("ip")
  {
    assert Common("iifname") && Common("oifname") && Common("meta") && Common("nfproto");
    assert Common("saddr") && Common("daddr") && Common("ip");
    hide Common, MildToken;
    CommonIsHarmless("iifname");
    CommonIsHarmless("oifname");
    CommonIsHarmless("meta");
    CommonIsHarmless("nfproto");
    CommonIsHarmless("saddr");
    CommonIsHarmless("daddr");
    CommonIsHarmless("ip");
  }

  lemma ConnectionWords()
    ensures MildWord("ct") && MildWord("state") && MildWord("direction") && MildWord("original") && MildWord("reply")
    ensures MildWord("mark") && MildWord("invalid")
  {
    assert Common("ct") && Common("state") && Common("direction") && Common("original") && Common("reply");
    assert Common("mark") && Common("invalid");
    hide Common, MildToken;
    CommonIsHarmless("ct");
    CommonIsHarmless("state");
    CommonIsHarmless("direction");
    CommonIsHarmless("original");
    CommonIsHarmless("reply");
    CommonIsHarmless("mark");
    CommonIsHarmless("invalid");
  }

  lemma TransportWords()
    ensures MildWord("dport") && MildWord("sport") && MildWord("type") && MildWord("tcp") && MildWord("udp")
    ensures MildWord("icmp") && MildWord("flags") && MildWord("syn")
  {
    assert Common("dport") && Common("sport") && Common("type") && Common("tcp") && Common("udp");
    assert Common("icmp") && Common("flags") && Common("syn");
    hide Common, MildToken;
    CommonIsHarmless("dport");
    CommonIsHarmless("sport");
    CommonIsHarmless("type");
    CommonIsHarmless("tcp");
    CommonIsHarmless("udp");
    CommonIsHarmless("icmp");
    CommonIsHarmless("flags");
    CommonIsHarmless("syn");
  }

  lemma EffectWords()
    ensures MildWord("option") && MildWord("maxseg") && MildWord("size") && MildWord("set")
    ensures MildWord("counter") && MildWord("drop") && MildWord("accept") && MildWord("comment")
  {
    assert Common("option") && Common("maxseg") && Common("size") && Common("set");
    assert Common("counter") && Common("drop") && Common("accept") && Common("comment");
    hide Common, MildToken;
    CommonIsHarmless("option");
    CommonIsHarmless("maxseg");
    CommonIsHarmless("size");
    CommonIsHarmless("set");
    CommonIsHarmless("counter");
    CommonIsHarmless("drop");
    CommonIsHarmless("accept");
    CommonIsHarmless("comment");
  }

  lemma HookWords()
    ensures MildWord("chain") && MildWord("hook") && MildWord("input") && MildWord("output") && MildWord("forward")
  {
    assert Common("chain") && Common("hook") && Common("input") && Common("output") && Common("forward");
    hide Common, MildToken;
    CommonIsHarmless("chain");
    CommonIsHarmless("hook");
    CommonIsHarmless("input");
    CommonIsHarmless("output");
    CommonIsHarmless("forward");
  }

  lemma PolicyWords()
    ensures MildWord("filter") && MildWord("priority") && MildWord("policy") && MildWord("filter;") && MildWord("drop;")
  {
    assert Common("filter") && Common("priority") && Common("policy") && Common("drop");
    assert "filter" + ";" == "filter;" && "drop" + ";" == "drop;";
    hide Common, MildToken;
    CommonIsHarmless("filter");
    CommonIsHarmless("priority");
    CommonIsHarmless("policy");
    CommonEnds("filter");
    CommonEnds("drop");
  }

  lemma NatWords()
    ensures MildWord("dnat") && MildWord("to") && MildWord("masquerade")
  {
    assert Common("dnat") && Common("to") && Common("masquerade");
    hide Common, MildToken;
    CommonIsHarmless("dnat");
    CommonIsHarmless("to");
    CommonIsHarmless("masquerade");
  }

  lemma NatChainWords()
    ensures MildWord("nat") && MildWord("prerouting") && MildWord("postrouting")
    ensures MildWord("dstnat;") && MildWord("srcnat;") && MildWord("accept;")
  {
    assert Common("nat") && Common("prerouting") && Common("postrouting");
    assert Common("dstnat") && Common("srcnat") && Common("accept");
    assert "dstnat" + ";" == "dstnat;" && "srcnat" + ";" == "srcnat;" && "accept" + ";" == "accept;";
    hide Common, MildToken;
    CommonIsHarmless("nat");
    CommonIsHarmless("prerouting");
    CommonIsHarmless("postrouting");
    CommonEnds("dstnat");
    CommonEnds("srcnat");
    CommonEnds("accept");
  }

  lemma SetWords()
    ensures MildWord("elements") && MildWord("interval,") && MildWord("interval;") && MildWord("timeout;")
  {
    assert Common("elements") && Common("interval") && Common("timeout");
    assert "interval" + "," == "interval," && "interval" + ";" == "interval;" && "timeout" + ";" == "timeout;";
    hide Common, MildToken;
    CommonIsHarmless("elements");
    CommonGoesOn("interval");
    CommonEnds("interval");
    CommonEnds("timeout");
  }

  /** One bare word with the given tell-tale character in it. */
  lemma OddAt(w: string, i: nat)
    requires i < |w| && Odd(w[i])
    requires forall j :: 0 <= j < |w| ==> w[j] != '"' && w[j] != '#' && w[j] != '\\' && !ScriptGuard.Blank(w[j]) && w[j] != ';'
    ensures MildWord(w) && MildWord(w + ",") && MildWord(w + ";")
  {
    hide MildToken;
    OddIsMild(w);
    OddGoesOn(w);
    OddEnds(w);
  }

  lemma OddAlone(w: string, i: nat)
    requires i < |w| && Odd(w[i])
    requires forall j :: 0 <= j < |w| ==> w[j] != '"' && w[j] != '#' && w[j] != '\\' && !ScriptGuard.Blank(w[j]) && w[j] != ';'
    ensures MildWord(w)
  {
    OddIsMild(w);
  }

  lemma FamilyWords()
    ensures MildWord("ipv4") && MildWord("ipv6") && MildWord("ip6")
  {
    hide MildToken;
    OddAlone("ipv4", 3);
    OddAlone("ipv6", 3);
    OddAlone("ip6", 2);
  }

  lemma IcmpWords()
    ensures MildWord("l4proto") && MildWord("ipv6-icmp") && MildWord("icmpv6") && MildWord("hoplimit")
  {
    assert Common("hoplimit");
    CommonIsHarmless("hoplimit");
    hide MildToken, Common;
    ProtocolWord("l4proto", 1);
    ProtocolWord("icmpv6", 5);
    ProtocolWord("ipv6-icmp", 3);
  }

  lemma ProtocolWord(w: string, i: nat)
    requires (w == "l4proto" && i == 1) || (w == "icmpv6" && i == 5) || (w == "ipv6-icmp" && i == 3)
    ensures MildWord(w)
  {
    hide MildToken;
    OddAlone(w, i);
  }

  lemma OperatorWords()
    ensures MildWord("&") && MildWord("==") && MildWord("|") && MildWord("=") && MildWord("(ct")
  {
    hide MildToken;
    OddAlone("&", 0);
    OddAlone("==", 0);
    OddAlone("|", 0);
    OddAlone("=", 0);
    OddAlone("(ct", 0);
  }

  lemma MaskWords()
    ensures MildWord("0xff000000") && MildWord("0x00ffffff)")
  {
    hide MildToken;
    OddAlone("0xff000000", 0);
    OddAlone("0x00ffffff)", 0);
  }

  lemma AddressWord(w: string)
    requires w == "ipv4_addr" || w == "ipv6_addr"
    ensures MildWord(w + ";")
  {
    hide MildToken;
    OddAt(w, 4);
  }

  lemma ModeWords()
    ensures MildWord("mode_marker") && MildWord("-300;")
  {
    assert "-300" + ";" == "-300;";
    hide MildToken;
    OddAlone("mode_marker", 4);
    OddAt("-300", 0);
  }

  lemma StateWords()
    ensures MildWord("established,related")
  {
    LongIsMild("established,related");
  }

  /** A word longer than any special one. */
  lemma LongIsMild(w: string)
    requires |w| > 8 && !ScriptGuard.Punctuation(w[0]) && !ScriptGuard.Punctuation(w[|w| - 1])
    requires forall j :: 0 <= j < |w| ==> w[j] != '"' && w[j] != '#' && w[j] != '\\' && !ScriptGuard.Blank(w[j]) && w[j] != ';'
    ensures MildWord(w)
  {
    assert ScriptGuard.TrimLeft(w) == w && ScriptGuard.TrimRight(w) == w;
    LongIsHarmless(w);
    hide Harmless;
    assert Core(w) == w;
  }

  lemma ShapesAreShort(s: Shape)
    requires s in SPECIAL_SHAPES
    ensures s.length <= 8
  {
  }

  lemma LongIsHarmless(w: string)
    requires |ScriptGuard.Keyword(w)| > 8
    ensures Harmless(w)
  {
    hide SPECIAL_SHAPES, ScriptGuard.MANAGEMENT, ScriptGuard.DIRECTIVES, ScriptGuard.Keyword;
    if Special(ScriptGuard.Keyword(w)) {
      SpecialIsLetters(ScriptGuard.Keyword(w));
      ShapesAreShort(ShapeOf(ScriptGuard.Keyword(w)));
    }
  }

  // ---- Numbers, prefixes and names ----

  predicate NameFits(n: string) {
    ScriptGuard.PieceOk(ScriptGuard.Quoted(n))
  }

  lemma NumberIsMild(n: int)
    ensures MildWord(Number(n)) && MildWord(Number(n) + ",")
  {
    OddAt(Number(n), 0);
  }

  lemma DecimalIsMild(n: nat)
    ensures MildWord(Decimal(n))
  {
    OddAlone(Decimal(n), 0);
  }

  lemma HexIsMild(v: bv32)
    ensures MildWord(Hex8(v))
  {
    hide Hex8;
    OddAlone(Hex8(v), 0);
  }

  lemma DottedIsMild(n: nat, port: nat)
    ensures MildWord(Dotted(n) + ":" + Decimal(port))
  {
    hide Decimal, Dotted;
    OddAlone(Dotted(n) + ":" + Decimal(port), 0);
  }

  lemma PrefixIsMild(s: string)
    requires ScriptGuard.PrefixText(s)
    ensures MildWord(s) && MildWord(s + ",")
  {
    var i :| 0 < i < |s| && s[i] == '/';
    OddAt(s, i);
  }

  /** Digits, or 0x and hexadecimal digits. */
  predicate MarkText(s: string) {
    s != "" && Digit(s[0]) && forall i :: 0 <= i < |s| ==> Digit(s[i]) || Letter(s[i])
  }

  lemma MarkIsMild(s: string)
    requires MarkText(s)
    ensures MildWord(s)
  {
    OddAlone(s, 0);
  }

  lemma {:induction false} ElementsAreMild(values: seq<string>)
    requires forall i :: 0 <= i < |values| ==> MildWord(values[i]) && MildWord(values[i] + ",")
    ensures MildWords(ScriptGuard.ElementWords(values))
  {
    hide MildWord;
    if |values| > 1 {
      ElementsAreMild(values[1..]);
    }
  }

  lemma WordTokensMild(ws: seq<string>)
    requires MildWords(ws)
    ensures MildTokens(WordTokens(ws))
  {
    hide MildToken;
    forall i | 0 <= i < |ws| ensures MildToken(WordTokens(ws)[i]) {
      assert MildWord(ws[i]);
    }
  }

  lemma BraceWords()
    ensures MildWord("{") && MildWord("}")
  {
    BraceIsMild();
  }

  lemma TwoMild(a: string, b: string)
    requires MildWord(a) && MildWord(b)
    ensures MildTokens(WordTokens([a, b]))
  {
    hide MildWord;
    WordTokensMild([a, b]);
  }

  lemma ThreeMild(a: string, b: string, c: string)
    requires MildWord(a) && MildWord(b) && MildWord(c)
    ensures MildTokens(WordTokens([a, b, c]))
  {
    hide MildWord;
    WordTokensMild([a, b, c]);
  }

  lemma MildAppend(a: seq<Token>, b: seq<Token>)
    requires MildTokens(a) && MildTokens(b)
    ensures MildTokens(a + b)
  {
    hide MildToken;
  }

  lemma BracedIsMild(values: seq<string>)
    requires forall i :: 0 <= i < |values| ==> MildWord(values[i]) && MildWord(values[i] + ",")
    ensures MildTokens(Braced(values))
  {
    ElementsAreMild(values);
    BraceIsMild();
    hide MildToken, ScriptGuard.ElementWords, MildWord;
    WordTokensMild(ScriptGuard.ElementWords(values));
    MildAppend([Word("{")], WordTokens(ScriptGuard.ElementWords(values)));
    MildAppend([Word("{")] + WordTokens(ScriptGuard.ElementWords(values)), [Word("}")]);
  }

  // ---- Rules ----

  /** Every prefix and the mark are written as the configuration must write them, and comments are one line without quotes. */
  ghost predicate SpellingOk(sp: Spelling) {
    && (forall p :: ScriptGuard.PrefixText(sp.prefix(p)))
    && MarkText(sp.mark)
    && (forall c, k :: NameFits(sp.note(c, k)))
  }

  /**
   Names stay inside their quotes, states and ICMP types are those the compiler asks for, sets hold what the
   input says, and the mark is the configured one.
   */
  predicate MatchFits(m: Match, in_: Input) {
    match m
    case Iif(n) => NameFits(n)
    case Oif(n) => NameFits(n)
    case InState(s) => s == {Invalid} || s == {Established, Related}
    case SourceSet(n, ps) => ps == Holding(in_, n)
    case DestinationSet(n, ps) => ps == Holding(in_, n)
    case FwMark(v) => v == in_.e.config.fwmark
    case IcmpIs(types) => forall t :: t in types ==> !t.OtherIcmp?
    case _ => true
  }

  predicate IsPort(m: Match) {
    m.DstPort? || m.DstPortIs? || m.SrcPort?
  }

  /** Ports and ICMP types are written with the transport the rule carries, and TCP and UDP only with ports. */
  predicate ClauseWritten(m: Match, ms: seq<Match>) {
    match m
    case Carries(t) => t.IcmpPacket? || t.Icmp6Packet? || (t == TransportOf(ms) && exists i :: 0 <= i < |ms| && IsPort(ms[i]))
    case DstPort(_) => Carries(TransportOf(ms)) in ms
    case DstPortIs(_) => Carries(TransportOf(ms)) in ms
    case SrcPort(_) => Carries(TransportOf(ms)) in ms
    case IcmpIs(_) => Carries(IcmpOf(ms)) in ms
    case _ => true
  }

  predicate Written(ms: seq<Match>) {
    forall i :: 0 <= i < |ms| ==> ClauseWritten(ms[i], ms)
  }

  /** Clauses that stand by themselves. */
  predicate Simple(ms: seq<Match>) {
    forall i :: 0 <= i < |ms| ==> !IsPort(ms[i]) && !ms[i].Carries? && !ms[i].IcmpIs?
  }

  predicate ClausesFit(ms: seq<Match>, in_: Input) {
    forall i :: 0 <= i < |ms| ==> MatchFits(ms[i], in_)
  }

  predicate RuleFits(r: Rule, in_: Input) {
    ClausesFit(r.matches, in_) && Written(r.matches)
  }

  predicate RulesFit(rules: seq<Rule>, in_: Input) {
    forall i :: 0 <= i < |rules| ==> RuleFits(rules[i], in_)
  }

  lemma QuotedName(keyword: string, n: string)
    requires MildWord(keyword) && NameFits(n)
    ensures MildTokens([Word(keyword), Str(n, "")])
  {
    QuotedIsMild(n, "");
  }

  lemma LinkClause(in_: Input, m: Match, ms: seq<Match>, sp: Spelling)
    requires (m.Iif? || m.Oif? || m.Nf?) && MatchFits(m, in_)
    ensures MildTokens(MatchTokens(m, ms, sp))
  {
    LinkWords();
    FamilyWords();
    hide MildWord, MildToken, MildTokens;
    match m
    case Iif(n) => QuotedName("iifname", n);
    case Oif(n) => QuotedName("oifname", n);
    case Nf(f) => WordTokensMild(["meta", "nfproto", if f.IPv4? then "ipv4" else "ipv6"]);
  }

  lemma FamilyMild(f: Family)
    ensures MildWord(FamilyText(f))
  {
    LinkWords();
    FamilyWords();
  }

  /** Lower-case letters, digits and underscores, with an underscore among them. */
  predicate Underscored(w: string) {
    && (forall j :: 0 <= j < |w| ==> 'a' <= w[j] <= 'z' || Digit(w[j]) || w[j] == '_')
    && exists i :: 0 <= i < |w| && w[i] == '_'
  }

  lemma UnderscoredIsMild(w: string)
    requires Underscored(w)
    ensures MildWord(w) && MildWord("@" + w)
  {
    var i :| 0 <= i < |w| && w[i] == '_';
    hide MildToken;
    OddAlone(w, i);
    OddAlone("@" + w, 0);
  }

  lemma SetNameMild(n: SetName)
    ensures MildWord("@" + SetText(n)) && MildWord(SetText(n))
  {
    SetNameChars(n);
    hide SetText, MildWord, Underscored;
    UnderscoredIsMild(SetText(n));
  }

  lemma SetNameChars(n: SetName)
    ensures Underscored(SetText(n))
  {
    match n
    case Blocked4 => assert SetText(n)[7] == '_';
    case Blocked6 => assert SetText(n)[7] == '_';
    case Trusted4 => assert SetText(n)[7] == '_';
    case Trusted6 => assert SetText(n)[7] == '_';
    case Bootstrap4 => assert SetText(n)[2] == '_';
    case Bootstrap6 => assert SetText(n)[2] == '_';
  }

  lemma AddressClause(m: Match, ms: seq<Match>, sp: Spelling)
    requires (m.SourceIn? || m.DestinationIn? || m.SourceSet? || m.DestinationSet?) && SpellingOk(sp)
    ensures MildTokens(MatchTokens(m, ms, sp))
  {
    LinkWords();
    hide MildWord, MildToken, MildTokens, FamilyText, SetText, ScriptGuard.PrefixText, NameFits, MarkText;
    match m
    case SourceIn(p) =>
      PrefixIsMild(sp.prefix(p));
      FamilyMild(FamilyOf(p.address));
      WordTokensMild([FamilyText(FamilyOf(p.address)), "saddr", sp.prefix(p)]);
    case DestinationIn(p) =>
      PrefixIsMild(sp.prefix(p));
      FamilyMild(FamilyOf(p.address));
      WordTokensMild([FamilyText(FamilyOf(p.address)), "daddr", sp.prefix(p)]);
    case SourceSet(n, _) =>
      SetNameMild(n);
      FamilyMild(SetFamily(n));
      WordTokensMild([FamilyText(SetFamily(n)), "saddr", "@" + SetText(n)]);
    case DestinationSet(n, _) =>
      SetNameMild(n);
      FamilyMild(SetFamily(n));
      WordTokensMild([FamilyText(SetFamily(n)), "daddr", "@" + SetText(n)]);
  }

  lemma StateText(s: set<CtState>)
    requires s == {Invalid} || s == {Established, Related}
    ensures Commas(StateNames(s)) == if s == {Invalid} then "invalid" else "established,related"
  {
    if s == {Invalid} {
      assert StateNames(s) == ["invalid"];
    } else {
      assert StateNames(s) == ["established", "related"];
      assert ["established", "related"][1..] == ["related"];
      assert "established" + "," + "related" == "established,related";
    }
  }

  lemma ConnectionClause(in_: Input, m: Match, ms: seq<Match>, sp: Spelling)
    requires (m.InState? || m.Directed? || m.MarkByte? || m.FwMark?) && MatchFits(m, in_) && SpellingOk(sp)
    ensures MildTokens(MatchTokens(m, ms, sp))
  {
    ConnectionWords();
    hide MildToken, MildTokens, Common, NameFits;
    match m
    case InState(s) =>
      StateText(s);
      StateWords();
      WordTokensMild(["ct", "state", Commas(StateNames(s))]);
    case Directed(d) => WordTokensMild(["ct", "direction", if d.Original? then "original" else "reply"]);
    case MarkByte(v) => MarkClause(v);
    case FwMark(_) =>
      LinkWords();
      MarkIsMild(sp.mark);
      WordTokensMild(["meta", "mark", sp.mark]);
  }

  lemma MarkClause(v: bv32)
    ensures MildTokens(MarkedWith(v))
  {
    ConnectionWords();
    OperatorWords();
    MaskWords();
    HexIsMild(v);
    hide MildWord, MildTokens, Hex8;
    WordTokensMild(["ct", "mark", "&", "0xff000000", "==", Hex8(v)]);
  }

  lemma TransportMild(ms: seq<Match>)
    ensures MildWord(TransportText(ms)) && MildWord(IcmpText(ms))
  {
    TransportWords();
    IcmpWords();
  }

  lemma NumbersAreMild(ns: seq<int>)
    ensures MildTokens(Braced(Numbers(ns)))
  {
    forall i | 0 <= i < |ns| ensures MildWord(Numbers(ns)[i]) && MildWord(Numbers(ns)[i] + ",") {
      NumberIsMild(ns[i]);
    }
    hide MildWord, MildTokens;
    BracedIsMild(Numbers(ns));
  }

  lemma PortClause(m: Match, ms: seq<Match>, sp: Spelling)
    requires m.DstPort? || m.DstPortIs? || m.SrcPort?
    ensures MildTokens(MatchTokens(m, ms, sp))
  {
    TransportWords();
    TransportMild(ms);
    hide MildWord, MildTokens, Number, Braced, TransportText;
    match m
    case DstPort(ports) =>
      WordTokensMild([TransportText(ms), "dport"]);
      NumbersAreMild(Ascending(ports));
      MildAppend(WordTokens([TransportText(ms), "dport"]), Braced(Numbers(Ascending(ports))));
    case DstPortIs(n) =>
      NumberIsMild(n);
      WordTokensMild([TransportText(ms), "dport", Number(n)]);
    case SrcPort(n) =>
      NumberIsMild(n);
      WordTokensMild([TransportText(ms), "sport", Number(n)]);
  }

  predicate Dashed(w: string) {
    && (forall j :: 0 <= j < |w| ==> 'a' <= w[j] <= 'z' || w[j] == '-')
    && exists i :: 0 <= i < |w| && w[i] == '-'
  }

  lemma DashedIsMild(w: string)
    requires Dashed(w)
    ensures MildWord(w) && MildWord(w + ",")
  {
    var i :| 0 <= i < |w| && w[i] == '-';
    hide MildToken;
    OddAt(w, i);
  }

  lemma ErrorNames()
    ensures Dashed("destination-unreachable") && Dashed("packet-too-big") && Dashed("time-exceeded") && Dashed("parameter-problem")
  {
    assert "destination-unreachable"[11] == '-' && "packet-too-big"[6] == '-';
    assert "time-exceeded"[4] == '-' && "parameter-problem"[9] == '-';
  }

  lemma DiscoveryNames()
    ensures Dashed("nd-neighbor-solicit") && Dashed("nd-neighbor-advert") && Dashed("nd-router-solicit") && Dashed("nd-router-advert")
  {
    assert "nd-neighbor-solicit"[2] == '-' && "nd-neighbor-advert"[2] == '-';
    assert "nd-router-solicit"[2] == '-' && "nd-router-advert"[2] == '-';
  }

  lemma IcmpNameDashed(t: IcmpType)
    requires !t.OtherIcmp?
    ensures Dashed(IcmpName(t))
  {
    ErrorNames();
    DiscoveryNames();
    hide Dashed;
  }

  lemma IcmpNamesDashed(s: set<IcmpType>)
    ensures forall i :: 0 <= i < |IcmpNames(s)| ==> Dashed(IcmpNames(s)[i]) && !IcmpListed(s)[i].OtherIcmp?
  {
    hide Dashed, IcmpName;
    forall i | 0 <= i < |IcmpNames(s)| ensures Dashed(IcmpNames(s)[i]) && !IcmpListed(s)[i].OtherIcmp? {
      assert IcmpListed(s)[i] in ICMP_ORDER;
      IcmpNameDashed(IcmpListed(s)[i]);
    }
  }

  lemma IcmpClause(m: Match, ms: seq<Match>, sp: Spelling)
    requires m.IcmpIs? || m.HopLimit? || m.SynOnly? || m.Carries?
    ensures MildTokens(MatchTokens(m, ms, sp))
  {
    TransportWords();
    IcmpWords();
    FamilyWords();
    LinkWords();
    TransportMild(ms);
    hide MildWord, MildTokens, Decimal, Braced, IcmpText, IcmpNames;
    match m
    case IcmpIs(types) =>
      WordTokensMild([IcmpText(ms), "type"]);
      IcmpListMild(types);
      MildAppend(WordTokens([IcmpText(ms), "type"]), Braced(IcmpNames(types)));
    case HopLimit(n) =>
      DecimalIsMild(n);
      WordTokensMild(["ip6", "hoplimit", Decimal(n)]);
    case SynOnly => WordTokensMild(["tcp", "flags", "syn"]);
    case Carries(t) =>
      WordTokensMild(["meta", "l4proto", "icmp"]);
      WordTokensMild(["meta", "l4proto", "ipv6-icmp"]);
      NothingMild();
  }

  lemma NothingMild()
    ensures MildTokens([])
  {
  }

  lemma IcmpListMild(types: set<IcmpType>)
    ensures MildTokens(Braced(IcmpNames(types)))
  {
    IcmpNamesDashed(types);
    hide IcmpNames, Dashed, MildWord, MildTokens, Braced;
    forall i | 0 <= i < |IcmpNames(types)| ensures MildWord(IcmpNames(types)[i]) && MildWord(IcmpNames(types)[i] + ",") {
      DashedIsMild(IcmpNames(types)[i]);
    }
    BracedIsMild(IcmpNames(types));
  }

  /** Every clause the compiler can write is made of harmless words. */
  lemma ClauseMild(in_: Input, m: Match, ms: seq<Match>, sp: Spelling)
    requires MatchFits(m, in_) && SpellingOk(sp)
    ensures MildTokens(MatchTokens(m, ms, sp))
  {
    hide MildTokens, MatchTokens, SpellingOk;
    match m
    case Iif(_) => LinkClause(in_, m, ms, sp);
    case Oif(_) => LinkClause(in_, m, ms, sp);
    case Nf(_) => LinkClause(in_, m, ms, sp);
    case SourceIn(_) => AddressClause(m, ms, sp);
    case DestinationIn(_) => AddressClause(m, ms, sp);
    case SourceSet(_, _) => AddressClause(m, ms, sp);
    case DestinationSet(_, _) => AddressClause(m, ms, sp);
    case InState(_) => ConnectionClause(in_, m, ms, sp);
    case Directed(_) => ConnectionClause(in_, m, ms, sp);
    case MarkByte(_) => ConnectionClause(in_, m, ms, sp);
    case FwMark(_) => ConnectionClause(in_, m, ms, sp);
    case DstPort(_) => PortClause(m, ms, sp);
    case DstPortIs(_) => PortClause(m, ms, sp);
    case SrcPort(_) => PortClause(m, ms, sp);
    case IcmpIs(_) => IcmpClause(m, ms, sp);
    case HopLimit(_) => IcmpClause(m, ms, sp);
    case SynOnly => IcmpClause(m, ms, sp);
    case Carries(_) => IcmpClause(m, ms, sp);
  }

  lemma {:induction false} ClausesMild(in_: Input, ms: seq<Match>, all: seq<Match>, sp: Spelling)
    requires ClausesFit(ms, in_) && SpellingOk(sp)
    ensures MildTokens(ClauseTokens(ms, all, sp))
  {
    hide MildToken, MatchTokens, SpellingOk, MatchFits;
    if ms != [] {
      ClauseMild(in_, ms[0], all, sp);
      ClausesMild(in_, ms[1..], all, sp);
      MildAppend(MatchTokens(ms[0], all, sp), ClauseTokens(ms[1..], all, sp));
    }
  }

  lemma OneMild(w: string)
    requires MildWord(w)
    ensures MildTokens([Word(w)])
  {
  }

  lemma EffectMild(e: Effect, unconditional: bool)
    ensures MildTokens(EffectTokens(e, unconditional))
  {
    EffectWords();
    hide MildWord, MildTokens, Decimal, Hex8;
    match e
    case Accept => OneMild("accept");
    case Drop =>
      WordTokensMild(["counter", "drop"]);
      OneMild("drop");
    case Count => OneMild("counter");
    case Clamp(n) => ClampMild(n);
    case Tag(id) => TagMild(id);
  }

  lemma ClampMild(n: nat)
    ensures MildTokens(EffectTokens(Clamp(n), false))
  {
    EffectWords();
    TransportWords();
    DecimalIsMild(n);
    hide MildWord, MildTokens, Decimal;
    WordTokensMild(["tcp", "option", "maxseg", "size", "set", Decimal(n)]);
  }

  lemma TagMild(id: bv8)
    ensures MildTokens(EffectTokens(Tag(id), false))
  {
    EffectWords();
    ConnectionWords();
    OperatorWords();
    MaskWords();
    var v := MarkBits.Encoded(id);
    HexIsMild(v);
    hide MildWord, MildTokens, Hex8;
    WordTokensMild(["ct", "mark", "set", "(ct", "mark", "&", "0x00ffffff)", "|", Hex8(v), "counter"]);
  }

  lemma RuleMild(in_: Input, r: Rule, note: string, sp: Spelling)
    requires ClausesFit(r.matches, in_) && SpellingOk(sp) && NameFits(note)
    ensures MildTokens(RuleTokens(r, note, sp))
  {
    EffectWords();
    hide MildTokens, ClauseTokens, EffectTokens, SpellingOk, MildWord;
    ClausesMild(in_, r.matches, r.matches, sp);
    EffectMild(r.effect, r.matches == []);
    QuotedName("comment", note);
    MildAppend(ClauseTokens(r.matches, r.matches, sp), EffectTokens(r.effect, r.matches == []));
    MildAppend(ClauseTokens(r.matches, r.matches, sp) + EffectTokens(r.effect, r.matches == []), [Word("comment"), Str(note, "")]);
  }

  lemma RuleLinesFine(in_: Input, rules: seq<Rule>, chain: string, sp: Spelling)
    requires RulesFit(rules, in_) && SpellingOk(sp)
    ensures FineLines(RuleLines(rules, chain, sp))
  {
    hide MildTokens, RuleTokens, ClausesFit, NameFits;
    forall k | 0 <= k < |rules| ensures FineLine(RuleLines(rules, chain, sp)[k]) {
      assert NameFits(sp.note(chain, k));
      RuleMild(in_, rules[k], sp.note(chain, k), sp);
    }
  }
}
