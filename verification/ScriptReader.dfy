/**
 Reading the rules of a script back: what a line of a chain means, defined on the words alone, and why the
 lines of a compiled chain mean exactly the rules it was compiled to.
 */
module ScriptReader {
  import opened Wrappers
  import opened Numerals
  import opened MarkBits
  import opened PolicyModel
  import opened PacketRules
  import opened PolicyCompiler
  import opened ScriptLines
  import opened CompiledScript
  import opened ScriptClauses

  import ScriptGuard

  /** What prefixes and the mark are as text, and what the named sets hold. */
  datatype Lexicon = Lexicon(prefix: string -> Prefix, mark: string -> bv32, sets: map<string, (SetName, seq<Prefix>)>)

  datatype Parsed = Parsed(matches: seq<Match>, rest: seq<Token>)

  // ---- The reader ----

  /** The items of a braced list, without their commas, and what follows it. */
  function ReadItems(ts: seq<Token>): Option<(seq<string>, seq<Token>)> {
    if ts == [] || !ts[0].Word? then None
    else if ts[0].text == "}" then Some(([], ts[1..]))
    else
      var w := ts[0].text;
      match ReadItems(ts[1..])
      case None => None
      case Some((items, rest)) => Some(([if w != "" && w[|w| - 1] == ',' then w[..|w| - 1] else w] + items, rest))
  }

  function ReadStates(w: string): set<CtState> {
    if w == "invalid" then {Invalid} else if w == "established,related" then {Established, Related} else {}
  }

  function ReadIcmp(w: string): IcmpType {
    if w == "destination-unreachable" then DestinationUnreachable
    else if w == "packet-too-big" then PacketTooBig
    else if w == "time-exceeded" then TimeExceeded
    else if w == "parameter-problem" then ParameterProblem
    else if w == "nd-neighbor-solicit" then NeighborSolicit
    else if w == "nd-neighbor-advert" then NeighborAdvert
    else if w == "nd-router-solicit" then RouterSolicit
    else if w == "nd-router-advert" then RouterAdvert
    else OtherIcmp(0)
  }

  function NumberSet(items: seq<string>): set<int> {
    set i | 0 <= i < |items| :: ReadNumber(items[i])
  }

  function IcmpSet(items: seq<string>): set<IcmpType> {
    set i | 0 <= i < |items| :: ReadIcmp(items[i])
  }

  function ReadMeta(key: string, w: string, rest: seq<Token>, x: Lexicon): Option<Parsed> {
    if key == "nfproto" then Some(Parsed([Nf(if w == "ipv4" then IPv4 else IPv6)], rest))
    else if key == "mark" then Some(Parsed([FwMark(x.mark(w))], rest))
    else if key == "l4proto" then Some(Parsed([Carries(if w == "icmp" then IcmpPacket else Icmp6Packet)], rest))
    else None
  }

  /** An address clause names its family, and only means something for addresses of that family. */
  function ReadAddress(family: string, key: string, w: string, rest: seq<Token>, x: Lexicon): Option<Parsed> {
    if key == "hoplimit" then Some(Parsed([HopLimit(Natural(w))], rest))
    else if key != "saddr" && key != "daddr" then None
    else if w != "" && w[0] == '@' then
      if w[1..] !in x.sets then None
      else
        var (n, ps) := x.sets[w[1..]];
        if FamilyText(SetFamily(n)) != family then None
        else Some(Parsed([if key == "saddr" then SourceSet(n, ps) else DestinationSet(n, ps)], rest))
    else
      var p := x.prefix(w);
      if FamilyText(FamilyOf(p.address)) != family then None
      else Some(Parsed([if key == "saddr" then SourceIn(p) else DestinationIn(p)], rest))
  }

  function Natural(w: string): nat {
    if AllDigits(w) then ReadDigits(w) else 0
  }

  function ReadConnection(key: string, w: string, rest: seq<Token>): Option<Parsed> {
    if key == "state" then Some(Parsed([InState(ReadStates(w))], rest))
    else if key == "direction" then Some(Parsed([Directed(if w == "original" then Original else Reply)], rest))
    else if key == "mark" && w == "&" && |rest| >= 3 && rest[..2] == WordTokens(["0xff000000", "=="]) && rest[2].Word? then
      Some(Parsed([MarkByte(ReadHex(rest[2].text))], rest[3..]))
    else None
  }

  /** Ports belong to the transport they are written with. */
  function ReadPort(transport: string, key: string, w: string, rest: seq<Token>): Option<Parsed> {
    var t := if transport == "tcp" then TcpPacket else UdpPacket;
    if key == "flags" && w == "syn" then Some(Parsed([SynOnly], rest))
    else if key == "sport" then Some(Parsed([Carries(t), SrcPort(ReadNumber(w))], rest))
    else if key != "dport" then None
    else if w == "{" then
      match ReadItems(rest)
      case None => None
      case Some((items, after)) => Some(Parsed([Carries(t), DstPort(NumberSet(items))], after))
    else Some(Parsed([Carries(t), DstPortIs(ReadNumber(w))], rest))
  }

  function ReadIcmpTypes(protocol: string, key: string, w: string, rest: seq<Token>): Option<Parsed> {
    if key != "type" || w != "{" then None
    else
      match ReadItems(rest)
      case None => None
      case Some((items, after)) =>
        Some(Parsed([Carries(if protocol == "icmpv6" then Icmp6Packet else IcmpPacket),
                     IcmpIs(IcmpSet(items))], after))
  }

  function ReadWords(a: string, key: string, w: string, rest: seq<Token>, x: Lexicon): Option<Parsed> {
    if a == "meta" then ReadMeta(key, w, rest, x)
    else if a == "ip" || a == "ip6" then ReadAddress(a, key, w, rest, x)
    else if a == "ct" then ReadConnection(key, w, rest)
    else if a == "tcp" || a == "udp" then ReadPort(a, key, w, rest)
    else if a == "icmp" || a == "icmpv6" then ReadIcmpTypes(a, key, w, rest)
    else None
  }

  /** The first clause of a rule. */
  function ReadClause(ts: seq<Token>, x: Lexicon): Option<Parsed> {
    if |ts| < 3 || !ts[0].Word? then None
    else if ts[0].text == "iifname" && ts[1].Str? then Some(Parsed([Iif(ts[1].text)], ts[2..]))
    else if ts[0].text == "oifname" && ts[1].Str? then Some(Parsed([Oif(ts[1].text)], ts[2..]))
    else if ts[1].Word? && ts[2].Word? then ReadWords(ts[0].text, ts[1].text, ts[2].text, ts[3..], x)
    else None
  }

  const CLAMP: seq<string> := ["tcp", "option", "maxseg", "size", "set"]
  const TAG: seq<string> := ["ct", "mark", "set", "(ct", "mark", "&", "0x00ffffff)", "|"]

  function ReadVerdict(body: seq<Token>): Option<Effect> {
    if body == [Word("accept")] then Some(Accept)
    else if body == [Word("drop")] || body == WordTokens(["counter", "drop"]) then Some(Drop)
    else if body == [Word("counter")] then Some(Count)
    else if |body| == 6 && body[..5] == WordTokens(CLAMP) && body[5].Word? then Some(Clamp(Natural(body[5].text)))
    else if |body| == 10 && body[..8] == WordTokens(TAG) && body[8].Word? && body[9] == Word("counter") then
      Some(Tag((ReadHex(body[8].text) >> 24) as bv8))
    else None
  }

  /** What a rule does once all its clauses hold; a comment follows. */
  function ReadEffect(ts: seq<Token>): Option<Effect> {
    if |ts| < 3 || ts[|ts| - 2] != Word("comment") || !ts[|ts| - 1].Str? then None
    else ReadVerdict(ts[..|ts| - 2])
  }

  /** A line of a chain. */
  function ReadRule(ts: seq<Token>, x: Lexicon): Option<Rule>
    decreases |ts|
  {
    match ReadEffect(ts)
    case Some(e) => Some(Rule([], e))
    case None =>
      match ReadClause(ts, x)
      case None => None
      case Some(c) =>
        if |c.rest| >= |ts| then None
        else
          match ReadRule(c.rest, x)
          case None => None
          case Some(r) => Some(Rule(c.matches + r.matches, r.effect))
  }

  function ReadChain(ls: seq<TextLine>, x: Lexicon): Option<seq<Rule>> {
    if ls == [] then Some([])
    else if !ls[0].Statement? then None
    else
      match ReadRule(ls[0].tokens, x)
      case None => None
      case Some(r) =>
        match ReadChain(ls[1..], x)
        case None => None
        case Some(rs) => Some([r] + rs)
  }

  /** The lexicon fits the spelling and the sets of a generation. */
  ghost predicate Understands(x: Lexicon, sp: Spelling, in_: Input) {
    && (forall p :: x.prefix(sp.prefix(p)) == p)
    && x.mark(sp.mark) == in_.e.config.fwmark
    && (forall n: SetName :: SetText(n) in x.sets && x.sets[SetText(n)] == (n, Holding(in_, n)))
  }

  // ---- What a compiled clause is read as ----

  /** Ports and ICMP types bring the transport they are written with; a bare TCP or UDP clause writes nothing. */
  function Meaning(m: Match, ms: seq<Match>): seq<Match> {
    if IsPort(m) then [Carries(TransportOf(ms)), m]
    else if m.IcmpIs? then [Carries(IcmpOf(ms)), m]
    else if m.Carries? && !m.transport.IcmpPacket? && !m.transport.Icmp6Packet? then []
    else [m]
  }

  function Meanings(ms: seq<Match>, all: seq<Match>): seq<Match> {
    if ms == [] then [] else Meaning(ms[0], all) + Meanings(ms[1..], all)
  }

  lemma Front(a: seq<Token>, rest: seq<Token>, k: nat)
    requires |a| == k
    ensures (a + rest)[k..] == rest && (forall i :: 0 <= i < k ==> (a + rest)[i] == a[i])
  {
  }

  lemma ReadThree(a: string, b: string, c: string, rest: seq<Token>, x: Lexicon)
    requires a != "iifname" && a != "oifname"
    ensures ReadClause(WordTokens([a, b, c]) + rest, x) == ReadWords(a, b, c, rest, x)
  {
    hide ReadWords;
    Front(WordTokens([a, b, c]), rest, 3);
  }

  lemma LinkReads(m: Match, ms: seq<Match>, rest: seq<Token>, sp: Spelling, x: Lexicon)
    requires m.Iif? || m.Oif?
    requires rest != []
    ensures ReadClause(MatchTokens(m, ms, sp) + rest, x) == Some(Parsed([m], rest))
  {
    hide ReadWords;
    Front(MatchTokens(m, ms, sp), rest, 2);
  }

  lemma MetaReads(m: Match, ms: seq<Match>, rest: seq<Token>, sp: Spelling, x: Lexicon, in_: Input)
    requires m.Nf? || m.FwMark? || (m.Carries? && (m.transport.IcmpPacket? || m.transport.Icmp6Packet?))
    requires MatchFits(m, in_) && Understands(x, sp, in_)
    ensures ReadClause(MatchTokens(m, ms, sp) + rest, x) == Some(Parsed([m], rest))
  {
    var mark := sp.mark;
    assert x.mark(mark) == in_.e.config.fwmark;
    hide ReadClause, Understands;
    match m
    case Nf(f) => ReadThree("meta", "nfproto", if f.IPv4? then "ipv4" else "ipv6", rest, x);
    case FwMark(v) => ReadThree("meta", "mark", mark, rest, x);
    case Carries(t) => ReadThree("meta", "l4proto", if t.IcmpPacket? then "icmp" else "ipv6-icmp", rest, x);
  }

  lemma PrefixReads(family: string, key: string, p: Prefix, rest: seq<Token>, sp: Spelling, x: Lexicon, in_: Input)
    requires SpellingOk(sp) && Understands(x, sp, in_) && (key == "saddr" || key == "daddr")
    requires family == FamilyText(FamilyOf(p.address))
    ensures ReadAddress(family, key, sp.prefix(p), rest, x) ==
      Some(Parsed([if key == "saddr" then SourceIn(p) else DestinationIn(p)], rest))
  {
    assert ScriptGuard.PrefixText(sp.prefix(p));
    assert x.prefix(sp.prefix(p)) == p;
  }

  lemma SetReads(family: string, key: string, n: SetName, rest: seq<Token>, sp: Spelling, x: Lexicon, in_: Input)
    requires Understands(x, sp, in_) && (key == "saddr" || key == "daddr") && family == FamilyText(SetFamily(n))
    ensures ReadAddress(family, key, "@" + SetText(n), rest, x) ==
      Some(Parsed([if key == "saddr" then SourceSet(n, Holding(in_, n)) else DestinationSet(n, Holding(in_, n))], rest))
  {
    var w := "@" + SetText(n);
    assert w[1..] == SetText(n);
    hide SetText;
    assert x.sets[SetText(n)] == (n, Holding(in_, n));
  }

  lemma FamilyNames(f: Family)
    ensures FamilyText(f) == "ip" || FamilyText(f) == "ip6"
    ensures "ip" != "meta" && "ip6" != "meta"
  {
  }

  lemma AddressReads(m: Match, ms: seq<Match>, rest: seq<Token>, sp: Spelling, x: Lexicon, in_: Input)
    requires m.SourceIn? || m.DestinationIn? || m.SourceSet? || m.DestinationSet?
    requires MatchFits(m, in_) && SpellingOk(sp) && Understands(x, sp, in_)
    ensures ReadClause(MatchTokens(m, ms, sp) + rest, x) == Some(Parsed([m], rest))
  {
    hide ReadClause, Understands, SpellingOk, ReadAddress, FamilyText, SetText;
    match m
    case SourceIn(p) =>
      var f := FamilyText(FamilyOf(p.address));
      FamilyNames(FamilyOf(p.address));
      ReadThree(f, "saddr", sp.prefix(p), rest, x);
      PrefixReads(f, "saddr", p, rest, sp, x, in_);
    case DestinationIn(p) =>
      var f := FamilyText(FamilyOf(p.address));
      FamilyNames(FamilyOf(p.address));
      ReadThree(f, "daddr", sp.prefix(p), rest, x);
      PrefixReads(f, "daddr", p, rest, sp, x, in_);
    case SourceSet(n, _) =>
      FamilyNames(SetFamily(n));
      ReadThree(FamilyText(SetFamily(n)), "saddr", "@" + SetText(n), rest, x);
      SetReads(FamilyText(SetFamily(n)), "saddr", n, rest, sp, x, in_);
    case DestinationSet(n, _) =>
      FamilyNames(SetFamily(n));
      ReadThree(FamilyText(SetFamily(n)), "daddr", "@" + SetText(n), rest, x);
      SetReads(FamilyText(SetFamily(n)), "daddr", n, rest, sp, x, in_);
  }

  lemma MarkReads(v: bv32, rest: seq<Token>, x: Lexicon)
    ensures ReadClause(MarkedWith(v) + rest, x) == Some(Parsed([MarkByte(v)], rest))
  {
    hide ReadClause, Hex8, ReadHex;
    var tail := WordTokens(["0xff000000", "==", Hex8(v)]);
    assert MarkedWith(v) == WordTokens(["ct", "mark", "&"]) + tail;
    assert MarkedWith(v) + rest == WordTokens(["ct", "mark", "&"]) + (tail + rest);
    ReadThree("ct", "mark", "&", tail + rest, x);
    Front(tail, rest, 3);
    assert (tail + rest)[..2] == WordTokens(["0xff000000", "=="]);
    HexReads(v);
  }

  lemma ConnectionReads(m: Match, ms: seq<Match>, rest: seq<Token>, sp: Spelling, x: Lexicon, in_: Input)
    requires (m.InState? || m.Directed? || m.MarkByte?) && MatchFits(m, in_)
    ensures ReadClause(MatchTokens(m, ms, sp) + rest, x) == Some(Parsed([m], rest))
  {
    hide ReadClause, Commas, StateNames, Hex8, MarkedWith;
    match m
    case InState(s) =>
      StateText(s);
      ReadThree("ct", "state", Commas(StateNames(s)), rest, x);
    case Directed(d) => ReadThree("ct", "direction", if d.Original? then "original" else "reply", rest, x);
    case MarkByte(v) => MarkReads(v, rest, x);
  }

  // ---- Lists ----

  predicate Item(w: string) {
    w != "" && w != "}" && w[|w| - 1] != ','
  }

  lemma OneItemReads(w: string, v: string, ts: seq<Token>, items: seq<string>, rest: seq<Token>)
    requires Item(v) && (w == v || w == v + ",") && ReadItems(ts) == Some((items, rest))
    ensures ReadItems([Word(w)] + ts) == Some(([v] + items, rest))
  {
    var all := [Word(w)] + ts;
    assert all[0] == Word(w) && all[1..] == ts;
    if w == v + "," {
      assert |w| > 1 && w[..|w| - 1] == v;
    }
  }

  /** Reading a list, item by item. */
  lemma {:induction false} ItemsRead(values: seq<string>, rest: seq<Token>)
    requires forall i :: 0 <= i < |values| ==> Item(values[i])
    ensures ReadItems(WordTokens(ScriptGuard.ElementWords(values)) + [Word("}")] + rest) == Some((values, rest))
  {
    if values == [] {
      var ts := [Word("}")] + rest;
      assert ts[0] == Word("}") && ts[1..] == rest;
      assert WordTokens([]) + [Word("}")] + rest == ts;
    } else {
      ItemsRead(values[1..], rest);
      assert Item(values[0]);
      hide ReadItems, Item;
      var w := if |values| == 1 then values[0] else values[0] + ",";
      var after := ScriptGuard.ElementWords(values[1..]);
      assert ScriptGuard.ElementWords(values) == [w] + after;
      hide ScriptGuard.ElementWords;
      var tail := WordTokens(after) + [Word("}")] + rest;
      ListStep(w, after, rest);
      OneItemReads(w, values[0], tail, values[1..], rest);
      assert values == [values[0]] + values[1..];
    }
  }

  lemma ListStep(w: string, after: seq<string>, rest: seq<Token>)
    ensures WordTokens([w] + after) + [Word("}")] + rest == [Word(w)] + (WordTokens(after) + [Word("}")] + rest)
  {
    assert WordTokens([w] + after) == [Word(w)] + WordTokens(after);
  }

  lemma BracedReads(a: string, key: string, values: seq<string>, rest: seq<Token>, x: Lexicon)
    requires (forall i :: 0 <= i < |values| ==> Item(values[i])) && a != "iifname" && a != "oifname"
    ensures exists after ::
      && ReadClause(WordTokens([a, key]) + Braced(values) + rest, x) == ReadWords(a, key, "{", after, x)
      && ReadItems(after) == Some((values, rest))
  {
    hide ReadClause, ReadItems, ReadWords, Item;
    var items := WordTokens(ScriptGuard.ElementWords(values)) + [Word("}")];
    assert Braced(values) == [Word("{")] + items;
    assert WordTokens([a, key]) + Braced(values) + rest == WordTokens([a, key, "{"]) + (items + rest);
    ReadThree(a, key, "{", items + rest, x);
    ItemsRead(values, rest);
  }

  lemma NumberItem(n: int)
    ensures Item(Number(n)) && Number(n) != "{"
  {
    var w := Number(n);
    assert w == (if n < 0 then "-" + Decimal(-n) else Decimal(n));
    assert '0' <= w[|w| - 1] <= '9';
    assert n >= 0 ==> '0' <= w[0] <= '9';
    assert n < 0 ==> w[0] == '-';
  }

  lemma NumbersReadSet(ports: set<int>)
    ensures var values := Numbers(Ascending(ports));
      && (forall i :: 0 <= i < |values| ==> Item(values[i]))
      && NumberSet(values) == ports
  {
    var ns := Ascending(ports);
    var values := Numbers(ns);
    AscendingMembers(ports);
    hide Number, ReadNumber, Ascending, Item;
    forall i | 0 <= i < |values| ensures Item(values[i]) && ReadNumber(values[i]) == ns[i] {
      NumberItem(ns[i]);
      NumberReads(ns[i]);
    }
    var got := NumberSet(values);
    forall n ensures n in got <==> n in ports {
      if n in ports {
        var i :| 0 <= i < |ns| && ns[i] == n;
        assert ReadNumber(values[i]) in got;
      }
    }
  }

  lemma OneOfTwo(ms: seq<Match>)
    ensures TransportOf(ms).TcpPacket? || TransportOf(ms).UdpPacket?
    ensures IcmpOf(ms).IcmpPacket? || IcmpOf(ms).Icmp6Packet?
  {
  }

  lemma PortsRead(m: Match, ms: seq<Match>, rest: seq<Token>, sp: Spelling, x: Lexicon)
    requires IsPort(m)
    ensures ReadClause(MatchTokens(m, ms, sp) + rest, x) == Some(Parsed([Carries(TransportOf(ms)), m], rest))
  {
    hide ReadClause, ReadItems, Number, ReadNumber, NumberSet, Numbers, Ascending, Braced, Item, TransportOf;
    var t := TransportText(ms);
    OneOfTwo(ms);
    match m
    case DstPort(ports) =>
      var values := Numbers(Ascending(ports));
      NumbersReadSet(ports);
      BracedReads(t, "dport", values, rest, x);
    case DstPortIs(n) =>
      NumberItem(n);
      NumberReads(n);
      ReadThree(t, "dport", Number(n), rest, x);
    case SrcPort(n) =>
      NumberReads(n);
      ReadThree(t, "sport", Number(n), rest, x);
  }

  lemma IcmpNameReads(t: IcmpType)
    requires !t.OtherIcmp?
    ensures ReadIcmp(IcmpName(t)) == t
  {
  }

  lemma IcmpNamesRead(types: set<IcmpType>)
    requires forall t :: t in types ==> !t.OtherIcmp?
    ensures var values := IcmpNames(types);
      && (forall i :: 0 <= i < |values| ==> Item(values[i]))
      && IcmpSet(values) == types
  {
    var values := IcmpNames(types);
    IcmpNamesDashed(types);
    hide ReadIcmp, Item, Dashed, IcmpName;
    forall i | 0 <= i < |values| ensures Item(values[i]) {
      DashedItem(values[i]);
    }
    var listed := IcmpListed(types);
    forall i | 0 <= i < |values| ensures ReadIcmp(values[i]) == listed[i] {
      IcmpNameReads(listed[i]);
    }
    hide IcmpNames, IcmpListed;
    var got := IcmpSet(values);
    forall t ensures t in got <==> t in types {
      if t in types {
        var i :| 0 <= i < |listed| && listed[i] == t;
        assert ReadIcmp(values[i]) in got;
      }
    }
  }

  lemma DashedItem(w: string)
    requires Dashed(w)
    ensures Item(w)
  {
    var i :| 0 <= i < |w| && w[i] == '-';
  }

  lemma IcmpReads(m: Match, ms: seq<Match>, rest: seq<Token>, sp: Spelling, x: Lexicon, in_: Input)
    requires m.IcmpIs? && MatchFits(m, in_)
    ensures ReadClause(MatchTokens(m, ms, sp) + rest, x) == Some(Parsed([Carries(IcmpOf(ms)), m], rest))
  {
    hide ReadClause, ReadItems, IcmpSet, IcmpNames, Braced, Item, IcmpOf, ReadIcmp;
    OneOfTwo(ms);
    IcmpNamesRead(m.types);
    BracedReads(IcmpText(ms), "type", IcmpNames(m.types), rest, x);
  }

  lemma OtherReads(m: Match, ms: seq<Match>, rest: seq<Token>, sp: Spelling, x: Lexicon)
    requires m.HopLimit? || m.SynOnly?
    ensures ReadClause(MatchTokens(m, ms, sp) + rest, x) == Some(Parsed([m], rest))
  {
    hide ReadClause, Decimal, ReadDigits;
    match m
    case HopLimit(n) =>
      DecimalReads(n);
      assert AllDigits(Decimal(n));
      ReadThree("ip6", "hoplimit", Decimal(n), rest, x);
    case SynOnly => ReadThree("tcp", "flags", "syn", rest, x);
  }

  predicate Silent(m: Match) {
    m.Carries? && !m.transport.IcmpPacket? && !m.transport.Icmp6Packet?
  }

  /** Every clause is read as what it means, and the rest is left. */
  lemma ClauseReads(m: Match, ms: seq<Match>, rest: seq<Token>, sp: Spelling, x: Lexicon, in_: Input)
    requires !Silent(m) && MatchFits(m, in_) && SpellingOk(sp) && Understands(x, sp, in_) && rest != []
    ensures ReadClause(MatchTokens(m, ms, sp) + rest, x) == Some(Parsed(Meaning(m, ms), rest))
  {
    hide ReadClause, MatchTokens, MatchFits, SpellingOk, Understands;
    match m
    case Iif(_) => LinkReads(m, ms, rest, sp, x);
    case Oif(_) => LinkReads(m, ms, rest, sp, x);
    case Nf(_) => MetaReads(m, ms, rest, sp, x, in_);
    case FwMark(_) => MetaReads(m, ms, rest, sp, x, in_);
    case Carries(_) => MetaReads(m, ms, rest, sp, x, in_);
    case SourceIn(_) => AddressReads(m, ms, rest, sp, x, in_);
    case DestinationIn(_) => AddressReads(m, ms, rest, sp, x, in_);
    case SourceSet(_, _) => AddressReads(m, ms, rest, sp, x, in_);
    case DestinationSet(_, _) => AddressReads(m, ms, rest, sp, x, in_);
    case InState(_) => ConnectionReads(m, ms, rest, sp, x, in_);
    case Directed(_) => ConnectionReads(m, ms, rest, sp, x, in_);
    case MarkByte(_) => ConnectionReads(m, ms, rest, sp, x, in_);
    case DstPort(_) => PortsRead(m, ms, rest, sp, x);
    case DstPortIs(_) => PortsRead(m, ms, rest, sp, x);
    case SrcPort(_) => PortsRead(m, ms, rest, sp, x);
    case IcmpIs(_) => IcmpReads(m, ms, rest, sp, x, in_);
    case HopLimit(_) => OtherReads(m, ms, rest, sp, x);
    case SynOnly => OtherReads(m, ms, rest, sp, x);
  }

  // ---- Effects ----

  /** What comes after the last clause. */
  function Ending(r: Rule, note: string): seq<Token> {
    EffectTokens(r.effect, r.matches == []) + [Word("comment"), Str(note, "")]
  }

  lemma TagReads(id: bv8)
    ensures (Encoded(id) >> 24) as bv8 == id
  {
  }

  lemma ClampVerdict(n: nat)
    ensures ReadVerdict(EffectTokens(Clamp(n), false)) == Some(Clamp(n))
  {
    hide Decimal, ReadDigits;
    DecimalReads(n);
    assert AllDigits(Decimal(n));
    var body := WordTokens(CLAMP + [Decimal(n)]);
    assert body == EffectTokens(Clamp(n), false);
    assert body[..5] == WordTokens(CLAMP);
  }

  lemma TagVerdict(id: bv8)
    ensures ReadVerdict(EffectTokens(Tag(id), false)) == Some(Tag(id))
  {
    hide Hex8, ReadHex;
    var v := Encoded(id);
    HexReads(v);
    TagReads(id);
    var body := WordTokens(TAG + [Hex8(v), "counter"]);
    assert body == EffectTokens(Tag(id), false);
    assert body[..8] == WordTokens(TAG);
  }

  lemma VerdictReads(e: Effect, unconditional: bool)
    ensures ReadVerdict(EffectTokens(e, unconditional)) == Some(e)
  {
    match e
    case Accept =>
    case Count =>
    case Drop => assert WordTokens(["counter", "drop"]) == [Word("counter"), Word("drop")];
    case Clamp(n) => ClampVerdict(n);
    case Tag(id) => TagVerdict(id);
  }

  lemma EffectReads(e: Effect, unconditional: bool, note: string)
    ensures ReadEffect(EffectTokens(e, unconditional) + [Word("comment"), Str(note, "")]) == Some(e)
  {
    VerdictReads(e, unconditional);
    EffectNotEmpty(e, unconditional);
    hide ReadVerdict, EffectTokens;
    var ts := EffectTokens(e, unconditional) + [Word("comment"), Str(note, "")];
    assert ts[..|ts| - 2] == EffectTokens(e, unconditional);
  }

  lemma EffectNotEmpty(e: Effect, unconditional: bool)
    ensures EffectTokens(e, unconditional) != []
  {
  }

  /** Tokens that do not begin an effect. */
  predicate NoEffect(ts: seq<Token>) {
    && |ts| >= 3 && ts[0].Word?
    && ts[0].text != "accept" && ts[0].text != "drop" && ts[0].text != "counter"
    && (ts[0].text == "tcp" ==> ts[1] != Word("option"))
    && (ts[0].text == "ct" ==> ts[1] != Word("mark") || ts[2] != Word("set"))
  }

  lemma NoEffectIsNone(ts: seq<Token>)
    requires NoEffect(ts)
    ensures ReadEffect(ts).None?
  {
    if |ts| >= 3 {
      var body := ts[..|ts| - 2];
      assert body[0] == ts[0];
      if |body| == 6 {
        assert body[..5][1] == ts[1];
        assert WordTokens(CLAMP)[0] == Word("tcp") && WordTokens(CLAMP)[1] == Word("option");
      }
      if |body| == 10 {
        assert body[..8][1] == ts[1] && body[..8][2] == ts[2];
        assert WordTokens(TAG)[0] == Word("ct") && WordTokens(TAG)[1] == Word("mark") && WordTokens(TAG)[2] == Word("set");
      }
    }
  }

  lemma ClauseIsNoEffect(m: Match, ms: seq<Match>, rest: seq<Token>, sp: Spelling)
    requires !Silent(m) && rest != []
    ensures NoEffect(MatchTokens(m, ms, sp) + rest)
  {
    hide Braced, Hex8, Decimal, Number, Commas, StateNames, SetText, IcmpNames, Ascending, Numbers;
  }

  // ---- Rules ----

  lemma SilentWritesNothing(m: Match, ms: seq<Match>, sp: Spelling)
    requires Silent(m)
    ensures MatchTokens(m, ms, sp) == [] && Meaning(m, ms) == []
  {
  }

  lemma ClauseThenRule(ts: seq<Token>, c: Parsed, r: Rule, x: Lexicon)
    requires NoEffect(ts) && ReadClause(ts, x) == Some(c) && |c.rest| < |ts| && ReadRule(c.rest, x) == Some(r)
    ensures ReadRule(ts, x) == Some(Rule(c.matches + r.matches, r.effect))
  {
    NoEffectIsNone(ts);
    hide ReadClause, ReadEffect, NoEffect;
  }

  lemma ClauseLonger(m: Match, ms: seq<Match>, sp: Spelling)
    requires !Silent(m)
    ensures MatchTokens(m, ms, sp) != []
  {
    hide Braced, Hex8, Decimal, Number, Commas, StateNames, SetText, IcmpNames, Ascending, Numbers;
  }

  /** A rule is read as the meanings of its clauses and its effect. */
  lemma {:induction false} ClausesRead(ms: seq<Match>, all: seq<Match>, e: Effect, end: seq<Token>, sp: Spelling, x: Lexicon, in_: Input)
    requires ClausesFit(ms, in_) && SpellingOk(sp) && Understands(x, sp, in_)
    requires end != [] && ReadRule(end, x) == Some(Rule([], e))
    ensures ReadRule(ClauseTokens(ms, all, sp) + end, x) == Some(Rule(Meanings(ms, all), e))
  {
    hide MatchTokens, ReadRule, ReadClause, SpellingOk, Understands, MatchFits, Meaning, NoEffect;
    if ms == [] {
      assert ClauseTokens(ms, all, sp) + end == end;
    } else {
      ClausesRead(ms[1..], all, e, end, sp, x, in_);
      var first, rest := MatchTokens(ms[0], all, sp), ClauseTokens(ms[1..], all, sp) + end;
      assert ClauseTokens(ms, all, sp) + end == first + rest;
      if Silent(ms[0]) {
        SilentWritesNothing(ms[0], all, sp);
        assert first + rest == rest;
        assert [] + Meanings(ms[1..], all) == Meanings(ms[1..], all);
      } else {
        ClauseReads(ms[0], all, rest, sp, x, in_);
        ClauseIsNoEffect(ms[0], all, rest, sp);
        ClauseLonger(ms[0], all, sp);
        ClauseThenRule(first + rest, Parsed(Meaning(ms[0], all), rest), Rule(Meanings(ms[1..], all), e), x);
      }
    }
  }

  lemma EndingReads(e: Effect, unconditional: bool, note: string, x: Lexicon)
    ensures ReadRule(EffectTokens(e, unconditional) + [Word("comment"), Str(note, "")], x) == Some(Rule([], e))
  {
    EffectReads(e, unconditional, note);
    hide ReadEffect, EffectTokens;
  }

  /** What a compiled rule is read as. */
  function ReadBack(r: Rule): Rule {
    Rule(Meanings(r.matches, r.matches), r.effect)
  }

  lemma RuleReads(r: Rule, note: string, sp: Spelling, x: Lexicon, in_: Input)
    requires ClausesFit(r.matches, in_) && SpellingOk(sp) && Understands(x, sp, in_)
    ensures ReadRule(RuleTokens(r, note, sp), x) == Some(ReadBack(r))
  {
    hide ReadRule, SpellingOk, Understands, ClausesFit, EffectTokens, ClauseTokens, Meanings;
    var end := EffectTokens(r.effect, r.matches == []) + [Word("comment"), Str(note, "")];
    EndingReads(r.effect, r.matches == [], note, x);
    ClausesRead(r.matches, r.matches, r.effect, end, sp, x, in_);
    assert RuleTokens(r, note, sp) == ClauseTokens(r.matches, r.matches, sp) + end;
  }

  // ---- The reading means the same ----

  lemma {:induction false} MeaningsMember(ms: seq<Match>, all: seq<Match>, i: nat)
    requires i < |ms|
    ensures forall k :: 0 <= k < |Meaning(ms[i], all)| ==> Meaning(ms[i], all)[k] in Meanings(ms, all)
  {
    hide Meaning;
    if i > 0 {
      MeaningsMember(ms[1..], all, i - 1);
    }
  }

  lemma {:induction false} MeaningsOrigin(ms: seq<Match>, all: seq<Match>, m: Match)
    requires m in Meanings(ms, all)
    ensures exists i :: 0 <= i < |ms| && m in Meaning(ms[i], all)
  {
    hide Meaning;
    if m !in Meaning(ms[0], all) {
      MeaningsOrigin(ms[1..], all, m);
      var i :| 0 <= i < |ms[1..]| && m in Meaning(ms[1..][i], all);
      assert ms[i + 1] == ms[1..][i];
    }
  }

  lemma MeaningHolds(ms: seq<Match>, i: nat, m: Match, p: Packet, mark: bv32)
    requires i < |ms| && Written(ms) && AllHold(ms, p, mark) && m in Meaning(ms[i], ms)
    ensures Holds(m, p, mark)
  {
    hide Holds, TransportOf, IcmpOf;
    assert ClauseWritten(ms[i], ms);
    assert m in ms;
  }

  lemma ClauseHolds(ms: seq<Match>, i: nat, p: Packet, mark: bv32)
    requires i < |ms| && Written(ms) && AllHold(Meanings(ms, ms), p, mark)
    ensures Holds(ms[i], p, mark)
  {
    hide Holds, TransportOf, IcmpOf;
    assert ClauseWritten(ms[i], ms);
    var all := Meanings(ms, ms);
    MeaningsMember(ms, ms, i);
    hide Meanings;
    if Silent(ms[i]) {
      var j :| 0 <= j < |ms| && IsPort(ms[j]);
      MeaningsMember(ms, ms, j);
      assert Meaning(ms[j], ms)[0] == ms[i];
      assert ms[i] in all;
    } else {
      var k := |Meaning(ms[i], ms)| - 1;
      assert Meaning(ms[i], ms)[k] == ms[i];
      assert ms[i] in all;
    }
  }

  /** A rule and what it is read as fire on the same packets. */
  lemma ReadBackMatches(r: Rule, p: Packet, mark: bv32)
    requires Written(r.matches)
    ensures AllHold(ReadBack(r).matches, p, mark) <==> AllHold(r.matches, p, mark)
  {
    var ms := r.matches;
    var all := Meanings(ms, ms);
    hide Holds, Meaning, Meanings, Written;
    if AllHold(ms, p, mark) {
      forall k | 0 <= k < |all| ensures Holds(all[k], p, mark) {
        MeaningsOrigin(ms, ms, all[k]);
        var i :| 0 <= i < |ms| && all[k] in Meaning(ms[i], ms);
        MeaningHolds(ms, i, all[k], p, mark);
      }
    }
    if AllHold(all, p, mark) {
      forall i | 0 <= i < |ms| ensures Holds(ms[i], p, mark) {
        ClauseHolds(ms, i, p, mark);
      }
    }
  }

  function AllReadBack(rules: seq<Rule>): seq<Rule> {
    if rules == [] then [] else [ReadBack(rules[0])] + AllReadBack(rules[1..])
  }

  lemma {:induction false} SameVerdicts(rules: seq<Rule>, p: Packet, mark: bv32)
    requires forall i :: 0 <= i < |rules| ==> Written(rules[i].matches)
    ensures Evaluate(AllReadBack(rules), p, mark) == Evaluate(rules, p, mark)
    decreases |rules|
  {
    hide AllHold, Written, Tagged;
    if rules != [] {
      var back := AllReadBack(rules);
      assert back[0] == ReadBack(rules[0]) && back[1..] == AllReadBack(rules[1..]);
      ReadBackMatches(rules[0], p, mark);
      hide ReadBack;
      assert back[0].effect == rules[0].effect;
      SameVerdicts(rules[1..], p, mark);
      if rules[0].effect.Tag? {
        SameVerdicts(rules[1..], p, Tagged(mark, rules[0].effect.id));
      }
    }
  }

  // ---- Chains ----

  lemma {:induction false} LinesRead(rules: seq<Rule>, ls: seq<TextLine>, sp: Spelling, x: Lexicon, in_: Input)
    requires RulesFit(rules, in_) && SpellingOk(sp) && Understands(x, sp, in_)
    requires |ls| == |rules| && forall k :: 0 <= k < |rules| ==> Writes(ls[k], rules[k], sp)
    ensures ReadChain(ls, x) == Some(AllReadBack(rules))
  {
    hide ReadRule, SpellingOk, Understands, RuleTokens, ReadBack, ClausesFit, Written;
    if rules != [] {
      assert Writes(ls[0], rules[0], sp);
      assert RuleFits(rules[0], in_);
      var note :| ls[0] == Statement(8, RuleTokens(rules[0], note, sp));
      RuleReads(rules[0], note, sp, x, in_);
      LinesRead(rules[1..], ls[1..], sp, x, in_);
    }
  }

  /** The line writes the rule, under some comment. */
  ghost predicate Writes(l: TextLine, r: Rule, sp: Spelling) {
    exists note :: l == Statement(8, RuleTokens(r, note, sp))
  }
}
