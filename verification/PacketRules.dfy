/** Chains of typed rules and what they do to one packet of one connection: the first verdict wins. */
module PacketRules {
  import opened MarkBits
  import opened PolicyModel

  datatype Transport = TcpPacket | UdpPacket | IcmpPacket | Icmp6Packet | OtherTransport(n: nat)

  datatype CtState = New | Established | Related | Invalid | Untracked

  datatype Direction = Original | Reply

  datatype IcmpType =
    | DestinationUnreachable | PacketTooBig | TimeExceeded | ParameterProblem
    | NeighborSolicit | NeighborAdvert | RouterSolicit | RouterAdvert
    | OtherIcmp(n: nat)

  datatype Fields = Fields(
    iif: string, oif: string,
    source: Address, destination: Address,
    transport: Transport, sport: int, dport: int, icmpType: IcmpType, syn: bool, hopLimit: nat,
    fwmark: bv32, state: CtState, direction: Direction)

  /** A packet is of one address family. */
  type Packet = p: Fields | FamilyOf(p.source) == FamilyOf(p.destination)
    witness Fields("", "", V4(0), V4(0), TcpPacket, 0, 0, OtherIcmp(0), false, 0, 0, New, Original)

  datatype SetName = Blocked4 | Blocked6 | Trusted4 | Trusted6 | Bootstrap4 | Bootstrap6

  /** A set is matched by name; the match carries what the set holds. */
  datatype Match =
    | Iif(name: string)
    | Oif(name: string)
    | Nf(family: Family)
    | SourceIn(prefix: Prefix)
    | DestinationIn(prefix: Prefix)
    | SourceSet(which: SetName, prefixes: seq<Prefix>)
    | DestinationSet(which: SetName, prefixes: seq<Prefix>)
    | InState(states: set<CtState>)
    | Directed(direction: Direction)
    | MarkByte(value: bv32)
    | FwMark(mark: bv32)
    | Carries(transport: Transport)
    | DstPort(ports: set<int>)
    | DstPortIs(port: int)
    | SrcPort(port: int)
    | IcmpIs(types: set<IcmpType>)
    | HopLimit(n: nat)
    | SynOnly

  /** Counting and clamping the segment size decide nothing. */
  datatype Effect = Accept | Drop | Count | Clamp(size: nat) | Tag(id: bv8)

  datatype Rule = Rule(matches: seq<Match>, effect: Effect)

  predicate InSet(prefixes: seq<Prefix>, a: Address) {
    exists i :: 0 <= i < |prefixes| && Contains(prefixes[i], a)
  }

  predicate Holds(m: Match, p: Packet, mark: bv32) {
    match m
    case Iif(name) => p.iif == name
    case Oif(name) => p.oif == name
    case Nf(f) => FamilyOf(p.source) == f
    case SourceIn(x) => Contains(x, p.source)
    case DestinationIn(x) => Contains(x, p.destination)
    case SourceSet(_, xs) => InSet(xs, p.source)
    case DestinationSet(_, xs) => InSet(xs, p.destination)
    case InState(s) => p.state in s
    case Directed(d) => p.direction == d
    case MarkByte(v) => Reserved(mark) == v
    case FwMark(v) => p.fwmark == v
    case Carries(t) => p.transport == t
    case DstPort(ports) => p.dport in ports
    case DstPortIs(n) => p.dport == n
    case SrcPort(n) => p.sport == n
    case IcmpIs(types) => p.icmpType in types
    case HopLimit(n) => FamilyOf(p.source) == IPv6 && p.hopLimit == n
    case SynOnly => p.transport.TcpPacket? && p.syn
  }

  predicate AllHold(ms: seq<Match>, p: Packet, mark: bv32) {
    forall i :: 0 <= i < |ms| ==> Holds(ms[i], p, mark)
  }

  datatype Decision = Accepted | Dropped | Undecided

  datatype Result = Result(decision: Decision, mark: bv32)

  function Evaluate(rules: seq<Rule>, p: Packet, mark: bv32): Result
    decreases |rules|
  {
    if rules == [] then Result(Undecided, mark)
    else if !AllHold(rules[0].matches, p, mark) then Evaluate(rules[1..], p, mark)
    else match rules[0].effect
      case Accept => Result(Accepted, mark)
      case Drop => Result(Dropped, mark)
      case Count => Evaluate(rules[1..], p, mark)
      case Clamp(_) => Evaluate(rules[1..], p, mark)
      case Tag(id) => Evaluate(rules[1..], p, Tagged(mark, id))
  }

  // ---- Composition ----

  lemma Assoc<T>(a: seq<T>, b: seq<T>, c: seq<T>)
    ensures (a + b) + c == a + (b + c)
  {
  }

  /** Rules after a deciding prefix are never reached; the mark carries over otherwise. */
  lemma {:induction false} EvaluateAppend(a: seq<Rule>, b: seq<Rule>, p: Packet, mark: bv32)
    ensures Evaluate(a + b, p, mark) ==
      var r := Evaluate(a, p, mark); if r.decision.Undecided? then Evaluate(b, p, r.mark) else r
    decreases |a|
  {
    hide AllHold, Tagged;
    if a == [] {
      assert a + b == b;
    } else {
      assert (a + b)[0] == a[0] && (a + b)[1..] == a[1..] + b;
      EvaluateAppend(a[1..], b, p, mark);
      if a[0].effect.Tag? {
        EvaluateAppend(a[1..], b, p, Tagged(mark, a[0].effect.id));
      }
    }
  }

  predicate Passive(e: Effect) {
    e.Count? || e.Clamp?
  }

  /** Every rule has this effect or decides nothing. */
  predicate Uniform(rules: seq<Rule>, e: Effect) {
    forall i :: 0 <= i < |rules| ==> rules[i].effect == e || Passive(rules[i].effect)
  }

  /** Some rule with this effect matches. */
  predicate Hit(rules: seq<Rule>, e: Effect, p: Packet, mark: bv32) {
    exists i :: 0 <= i < |rules| && Fires(rules[i], e, p, mark)
  }

  predicate Fires(r: Rule, e: Effect, p: Packet, mark: bv32) {
    r.effect == e && AllHold(r.matches, p, mark)
  }

  lemma HitAppend(a: seq<Rule>, b: seq<Rule>, e: Effect, p: Packet, mark: bv32)
    ensures Hit(a + b, e, p, mark) <==> Hit(a, e, p, mark) || Hit(b, e, p, mark)
    ensures Uniform(a + b, e) <==> Uniform(a, e) && Uniform(b, e)
  {
    hide Fires;
    var ab := a + b;
    assert forall i :: 0 <= i < |a| ==> ab[i] == a[i];
    assert forall i :: 0 <= i < |b| ==> ab[|a| + i] == b[i];
  }

  function DecisionOf(e: Effect): Decision {
    match e
    case Accept => Accepted
    case Drop => Dropped
    case _ => Undecided
  }

  /** A segment of rules with one effect decides exactly the packets that one of those rules matches. */
  lemma {:induction false} UniformSegment(rules: seq<Rule>, e: Effect, p: Packet, mark: bv32)
    requires Uniform(rules, e) && (e.Accept? || e.Drop?)
    ensures Evaluate(rules, p, mark) == Result(if Hit(rules, e, p, mark) then DecisionOf(e) else Undecided, mark)
    decreases |rules|
  {
    if rules != [] {
      HitAppend([rules[0]], rules[1..], e, p, mark);
      assert rules == [rules[0]] + rules[1..];
      UniformSegment(rules[1..], e, p, mark);
      assert Hit([rules[0]], e, p, mark) <==> Fires([rules[0]][0], e, p, mark);
    }
  }

  /** A base chain in layers; every layer has one effect and the last rule drops. */
  datatype Layered = Layered(
    guards: seq<Rule>, early: seq<Rule>, tags: seq<Rule>,
    accepts: seq<Rule>, denies: seq<Rule>,
    replies: seq<Rule>, blocks: seq<Rule>, allows: seq<Rule>)
  {
    function Rules(): seq<Rule> {
      guards + (early + (tags + (accepts + (denies + (replies + (blocks + (allows + [Rule([], Drop)])))))))
    }

    ghost predicate Valid() {
      && Uniform(guards, Drop) && Uniform(early, Accept)
      && (forall i :: 0 <= i < |tags| ==> tags[i].effect.Tag?)
      && Uniform(accepts, Accept) && Uniform(denies, Drop)
      && Uniform(replies, Accept) && Uniform(blocks, Drop) && Uniform(allows, Accept)
    }

    function Verdict(p: Packet, mark: bv32): Decision {
      if Hit(guards, Drop, p, mark) then Dropped
      else if Hit(early, Accept, p, mark) then Accepted
      else Late(p, Evaluate(tags, p, mark).mark)
    }

    function Late(p: Packet, mark: bv32): Decision {
      if Hit(accepts, Accept, p, mark) then Accepted
      else if Hit(denies, Drop, p, mark) then Dropped
      else if Hit(replies, Accept, p, mark) then Accepted
      else if Hit(blocks, Drop, p, mark) then Dropped
      else if Hit(allows, Accept, p, mark) then Accepted
      else Dropped
    }

    /** Appending layer after layer gives the chain. */
    lemma LeftNested()
      ensures guards + early + tags + accepts + denies + replies + blocks + allows + [Rule([], Drop)] == Rules()
    {
      var z := [Rule([], Drop)];
      Assoc(guards + early + tags + accepts + denies + replies + blocks, allows, z);
      Assoc(guards + early + tags + accepts + denies + replies, blocks, allows + z);
      Assoc(guards + early + tags + accepts + denies, replies, blocks + (allows + z));
      Assoc(guards + early + tags + accepts, denies, replies + (blocks + (allows + z)));
      Assoc(guards + early + tags, accepts, denies + (replies + (blocks + (allows + z))));
      Assoc(guards + early, tags, accepts + (denies + (replies + (blocks + (allows + z)))));
      Assoc(guards, early, tags + (accepts + (denies + (replies + (blocks + (allows + z))))));
    }

    /** Evaluating the chain is evaluating its layers in order. */
    lemma VerdictIsExact(p: Packet, mark: bv32)
      requires Valid()
      ensures Evaluate(Rules(), p, mark).decision == Verdict(p, mark)
    {
      hide Hit, Uniform;
      EvaluateAppend(guards, early + (tags + (accepts + (denies + (replies + (blocks + (allows + [Rule([], Drop)])))))), p, mark);
      EvaluateAppend(early, tags + (accepts + (denies + (replies + (blocks + (allows + [Rule([], Drop)]))))), p, mark);
      EvaluateAppend(tags, accepts + (denies + (replies + (blocks + (allows + [Rule([], Drop)])))), p, mark);
      UniformSegment(guards, Drop, p, mark);
      UniformSegment(early, Accept, p, mark);
      TagsDecideNothing(tags, p, mark);
      LateIsExact(p, Evaluate(tags, p, mark).mark);
    }

    lemma LateIsExact(p: Packet, mark: bv32)
      requires Valid()
      ensures Evaluate(accepts + (denies + (replies + (blocks + (allows + [Rule([], Drop)])))), p, mark).decision == Late(p, mark)
    {
      hide Hit, Uniform;
      EvaluateAppend(accepts, denies + (replies + (blocks + (allows + [Rule([], Drop)]))), p, mark);
      EvaluateAppend(denies, replies + (blocks + (allows + [Rule([], Drop)])), p, mark);
      EvaluateAppend(replies, blocks + (allows + [Rule([], Drop)]), p, mark);
      EvaluateAppend(blocks, allows + [Rule([], Drop)], p, mark);
      EvaluateAppend(allows, [Rule([], Drop)], p, mark);
      UniformSegment(accepts, Accept, p, mark);
      UniformSegment(denies, Drop, p, mark);
      UniformSegment(replies, Accept, p, mark);
      UniformSegment(blocks, Drop, p, mark);
      UniformSegment(allows, Accept, p, mark);
    }
  }

  lemma {:induction false} TagsDecideNothing(tags: seq<Rule>, p: Packet, mark: bv32)
    requires forall i :: 0 <= i < |tags| ==> tags[i].effect.Tag?
    ensures Evaluate(tags, p, mark).decision.Undecided?
    decreases |tags|
  {
    if tags != [] {
      TagsDecideNothing(tags[1..], p, mark);
      TagsDecideNothing(tags[1..], p, Tagged(mark, tags[0].effect.id));
    }
  }

  // ---- The mark ----

  /** Every rule that writes the mark fires only on an original packet of a connection with no identity yet. */
  predicate TagsOnce(rules: seq<Rule>) {
    forall i :: 0 <= i < |rules| && rules[i].effect.Tag? ==>
      rules[i].effect.id != 0 && Directed(Original) in rules[i].matches && MarkByte(0) in rules[i].matches
  }

  predicate SomeTagFired(rules: seq<Rule>, p: Packet, mark: bv32, after: bv32) {
    exists i :: 0 <= i < |rules| && TagFired(rules[i], p, mark, after)
  }

  predicate TagFired(r: Rule, p: Packet, mark: bv32, after: bv32) {
    r.effect.Tag? && AllHold(r.matches, p, mark) && Reserved(after) == Encoded(r.effect.id)
  }

  /** The low bits are as before; the mark changes at most from no identity to that of a tag that fired. */
  predicate TaggedAtMost(rules: seq<Rule>, p: Packet, mark: bv32, after: bv32) {
    && Kept(after) == Kept(mark)
    && (Reserved(mark) != 0 || p.direction == Reply ==> after == mark)
    && (after != mark ==> Reserved(mark) == 0 && SomeTagFired(rules, p, mark, after))
  }

  lemma TagStep(r: Rule, rest: seq<Rule>, p: Packet, mark: bv32, after: bv32)
    requires r.effect.Tag? && TagsOnce([r]) && AllHold(r.matches, p, mark)
    requires TaggedAtMost(rest, p, Tagged(mark, r.effect.id), after)
    ensures TaggedAtMost([r] + rest, p, mark, after)
  {
    hide Kept, Reserved, Tagged, Encoded, AllHold;
    TagFires(r, p, mark);
    assert ([r] + rest)[0] == r && TagFired(r, p, mark, after);
  }

  lemma PassStep(r: Rule, rest: seq<Rule>, p: Packet, mark: bv32, after: bv32)
    requires TaggedAtMost(rest, p, mark, after)
    ensures TaggedAtMost([r] + rest, p, mark, after)
  {
    hide TagFired, Kept, Reserved;
    if i :| 0 <= i < |rest| && TagFired(rest[i], p, mark, after) {
      assert TagFired(([r] + rest)[i + 1], p, mark, after);
    }
  }

  /** A chain leaves the low bits alone, and the identity alone once there is one. */
  lemma {:induction false} MarkIsTaggedOnce(rules: seq<Rule>, p: Packet, mark: bv32)
    requires TagsOnce(rules)
    ensures var r := Evaluate(rules, p, mark);
      && Kept(r.mark) == Kept(mark)
      && (Reserved(mark) != 0 || p.direction == Reply ==> r.mark == mark)
      && (r.mark != mark ==> Reserved(mark) == 0 && SomeTagFired(rules, p, mark, r.mark))
    decreases |rules|
  {
    assert TaggedAtMost(rules, p, mark, Evaluate(rules, p, mark).mark) by {
      hide Kept, Reserved, Tagged, Encoded, AllHold, SomeTagFired;
      if rules != [] {
        var rest := rules[1..];
        assert rules == [rules[0]] + rest;
        assert forall i :: 0 <= i < |rest| ==> rest[i] == rules[i + 1];
        if AllHold(rules[0].matches, p, mark) && rules[0].effect.Tag? {
          var tagged := Tagged(mark, rules[0].effect.id);
          MarkIsTaggedOnce(rest, p, tagged);
          TagStep(rules[0], rest, p, mark, Evaluate(rest, p, tagged).mark);
        } else {
          MarkIsTaggedOnce(rest, p, mark);
          PassStep(rules[0], rest, p, mark, Evaluate(rest, p, mark).mark);
        }
      }
    }
    hide Evaluate, TagsOnce, SomeTagFired, Kept, Reserved;
  }

  lemma TagFires(r: Rule, p: Packet, mark: bv32)
    requires r.effect.Tag? && TagsOnce([r]) && AllHold(r.matches, p, mark)
    ensures p.direction == Original && Reserved(mark) == 0
    ensures var t := Tagged(mark, r.effect.id);
      Kept(t) == Kept(mark) && Reserved(t) == Encoded(r.effect.id) && Reserved(t) != 0
  {
    hide Kept, Reserved, Tagged, Encoded;
    assert TagsOnce([r]) ==> [r][0].effect.id != 0 && Directed(Original) in [r][0].matches && MarkByte(0) in [r][0].matches;
    TaggedKeeps(mark, r.effect.id);
    EncodedIsInjective(r.effect.id, 0);
    var i :| 0 <= i < |r.matches| && r.matches[i] == Directed(Original);
    var j :| 0 <= j < |r.matches| && r.matches[j] == MarkByte(0);
    assert Holds(r.matches[i], p, mark) && Holds(r.matches[j], p, mark);
  }
}
