/** The text of a generation, cut into lines and words and read, admits exactly what the compiled chains admit. */
module ScriptMeaning {
  import opened Wrappers
  import opened PacketRules
  import opened PolicyCompiler
  import opened TrafficGuarantees
  import opened ScriptLines
  import opened ScriptLexer
  import opened CompiledScript
  import opened ScriptClauses
  import opened ScriptAcceptance
  import opened ScriptReader

  import ScriptGuard

  /** The lines of a base chain between its head and its closing brace. */
  function ChainBody(g: Generation, h: Hook): seq<TextLine> {
    var ls := BaseChain(g, h);
    ls[2..|ls| - 1]
  }

  lemma ChainIsRead(g: Generation, h: Hook, x: Lexicon)
    requires GenerationOk(g) && Understands(x, g.spelling, g.input)
    ensures ReadChain(ChainBody(g, h), x) == Some(AllReadBack(LayersFor(g.input, h).Rules()))
    ensures forall i :: 0 <= i < |LayersFor(g.input, h).Rules()| ==> Written(LayersFor(g.input, h).Rules()[i].matches)
  {
    var rules := LayersFor(g.input, h).Rules();
    ChainRulesFit(g.input, h);
    hide Faithful, SpellingOk, NatRuleOk, LayersFor, RuleTokens, Written, ClausesFit, Understands, ReadChain, AllReadBack;
    var ls := RuleLines(rules, HookText(h), g.spelling);
    assert ChainBody(g, h) == ls;
    forall k | 0 <= k < |rules| ensures Writes(ls[k], rules[k], g.spelling) && Written(rules[k].matches) {
      assert ls[k] == Statement(8, RuleTokens(rules[k], g.spelling.note(HookText(h), k), g.spelling));
      assert RuleFits(rules[k], g.input);
    }
    LinesRead(rules, ls, g.spelling, x, g.input);
  }

  // ---- From the text alone ----

  /** The first line that is this one, or the length. */
  function LineAt(ls: seq<TextLine>, l: TextLine): (k: nat)
    ensures k <= |ls| && (k < |ls| ==> ls[k] == l) && forall i :: 0 <= i < k ==> ls[i] != l
  {
    if ls == [] || ls[0] == l then 0 else 1 + LineAt(ls[1..], l)
  }

  function HeadOf(h: Hook): TextLine {
    Statement(4, WordTokens(["chain", HookText(h), "{"]))
  }

  /** What stands between the head of a base chain, with the line that declares it, and the next closing brace. */
  function BodyOf(ls: seq<TextLine>, h: Hook): seq<TextLine> {
    var k := LineAt(ls, HeadOf(h));
    if k + 2 > |ls| then []
    else
      var after := ls[k + 2..];
      after[..LineAt(after, CLOSE)]
  }

  /** The rules of a base chain, read from the text of a whole script. */
  function ReadScript(text: string, h: Hook, x: Lexicon): Option<seq<Rule>> {
    match Lex(text)
    case None => None
    case Some(ls) => ReadChain(BodyOf(ls, h), x)
  }

  lemma TextIsCut(g: Generation)
    requires GenerationOk(g)
    ensures Lex(CompiledText(g)) == Some(Lines(g))
  {
    hide GenerationOk, Lines, FineLine, Legible;
    LinesFine(g);
    forall i | 0 <= i < |Lines(g)| ensures Legible(Lines(g)[i]) {
      assert FineLine(Lines(g)[i]);
      FineIsLegible(Lines(g)[i]);
    }
    LexedAgain(Lines(g));
  }

  /** No line of these opens a base chain. */
  predicate NoHeads(ls: seq<TextLine>) {
    forall i :: 0 <= i < |ls| ==> ls[i] != HeadOf(InputHook) && ls[i] != HeadOf(OutputHook) && ls[i] != HeadOf(ForwardHook)
  }

  lemma NoHeadsAppend(a: seq<TextLine>, b: seq<TextLine>)
    requires NoHeads(a) && NoHeads(b)
    ensures NoHeads(a + b)
  {
    hide HeadOf;
  }

  lemma HeadTokens(h: Hook)
    ensures HeadOf(h).tokens[0] == Word("chain") && HeadOf(h).indent == 4 && |HeadOf(h).tokens| == 3
    ensures HeadOf(h).tokens[1] == Word(HookText(h))
  {
  }

  lemma HeadsDiffer(h: Hook, k: Hook)
    requires h != k
    ensures HeadOf(h) != HeadOf(k)
  {
    HeadTokens(h);
    HeadTokens(k);
    assert "input" != "output" && "output" != "forward" && "input" != "forward";
  }

  lemma NotAHead(l: TextLine)
    requires l.Remark? || l.indent != 4 || l.tokens == [] || l.tokens[0] != Word("chain")
    ensures NoHeads([l])
  {
    HeadTokens(InputHook);
    HeadTokens(OutputHook);
    HeadTokens(ForwardHook);
  }

  lemma SetHasNoHeads(name: string, kind: string, values: seq<string>, timed: bool)
    ensures NoHeads(SetLines(name, kind, values, timed))
  {
    var head, elements := SetHead(name, kind, timed), SetElements(values);
    NotAHead(head[0]);
    NotAHead(head[1]);
    NotAHead(CLOSE);
    if elements != [] {
      NotAHead(elements[0]);
    }
    hide HeadOf, Braced;
    assert NoHeads(head) by {
      assert NoHeads([head[0]]) && [head[0]][0] == head[0] && NoHeads([head[1]]) && [head[1]][0] == head[1];
    }
    assert NoHeads(elements) by {
      if elements != [] {
        assert elements == [elements[0]];
      }
    }
    NoHeadsAppend(head, elements);
    NoHeadsAppend(head + elements, [CLOSE]);
  }

  lemma SetsHaveNoHeads(g: Generation)
    ensures NoHeads(AllSets(g))
  {
    hide NoHeads, SetLines;
    var sp, i := g.spelling, g.input;
    SetHasNoHeads("blocked_v4", "ipv4_addr", Spelled(i.blocked4, sp), false);
    SetHasNoHeads("blocked_v6", "ipv6_addr", Spelled(i.blocked6, sp), false);
    SetHasNoHeads("trusted_v4", "ipv4_addr", [], true);
    SetHasNoHeads("trusted_v6", "ipv6_addr", [], true);
    SetHasNoHeads("wg_bootstrap_v4", "ipv4_addr", Spelled(i.bootstrap4, sp), false);
    SetHasNoHeads("wg_bootstrap_v6", "ipv6_addr", Spelled(i.bootstrap6, sp), false);
    SetHasNoHeads("docker_nets", "ipv4_addr", Spelled(g.docker4, sp), false);
    SetHasNoHeads("docker_nets6", "ipv6_addr", Spelled(g.docker6, sp), false);
    var a := SetLines("blocked_v4", "ipv4_addr", Spelled(i.blocked4, sp), false);
    var b := a + SetLines("blocked_v6", "ipv6_addr", Spelled(i.blocked6, sp), false);
    NoHeadsAppend(a, SetLines("blocked_v6", "ipv6_addr", Spelled(i.blocked6, sp), false));
    var c := b + SetLines("trusted_v4", "ipv4_addr", [], true);
    NoHeadsAppend(b, SetLines("trusted_v4", "ipv4_addr", [], true));
    var d := c + SetLines("trusted_v6", "ipv6_addr", [], true);
    NoHeadsAppend(c, SetLines("trusted_v6", "ipv6_addr", [], true));
    var e := d + SetLines("wg_bootstrap_v4", "ipv4_addr", Spelled(i.bootstrap4, sp), false);
    NoHeadsAppend(d, SetLines("wg_bootstrap_v4", "ipv4_addr", Spelled(i.bootstrap4, sp), false));
    var f := e + SetLines("wg_bootstrap_v6", "ipv6_addr", Spelled(i.bootstrap6, sp), false);
    NoHeadsAppend(e, SetLines("wg_bootstrap_v6", "ipv6_addr", Spelled(i.bootstrap6, sp), false));
    NoHeadsAppend(f, SetLines("docker_nets", "ipv4_addr", Spelled(g.docker4, sp), false));
    NoHeadsAppend(f + SetLines("docker_nets", "ipv4_addr", Spelled(g.docker4, sp), false),
      SetLines("docker_nets6", "ipv6_addr", Spelled(g.docker6, sp), false));
  }

  /** Everything in front of the first base chain. */
  function Preamble(g: Generation): seq<TextLine> {
    Header(g) + [EMPTY_LINE] + ([TableLine(ScriptGuard.OWNED[0])] + AllSets(g))
  }

  /** Everything behind the last. */
  function Rest(g: Generation): seq<TextLine> {
    [CLOSE_TABLE] + [EMPTY_LINE] + NatTable(g) + [EMPTY_LINE] + Ip6Table(g)
  }

  lemma PreambleHasNoHeads(g: Generation)
    ensures NoHeads(Preamble(g))
  {
    SetsHaveNoHeads(g);
    var notes, table := Header(g), TableLine(ScriptGuard.OWNED[0]);
    NotAHead(notes[0]);
    NotAHead(notes[1]);
    NotAHead(notes[2]);
    NotAHead(notes[3]);
    NotAHead(EMPTY_LINE);
    NotAHead(table);
    hide HeadOf, AllSets;
    forall i | 0 <= i < 4 ensures NoHeads([notes[i]]) {
    }
    assert NoHeads(notes) by {
      forall i | 0 <= i < |notes| ensures NoHeads([notes[i]]) && [notes[i]][0] == notes[i] {
      }
    }
    NoHeadsAppend(notes, [EMPTY_LINE]);
    NoHeadsAppend([table], AllSets(g));
    NoHeadsAppend(notes + [EMPTY_LINE], [table] + AllSets(g));
  }

  lemma LinesInOrder(g: Generation)
    ensures Lines(g) == Preamble(g) + BaseChain(g, InputHook) + BaseChain(g, OutputHook) + BaseChain(g, ForwardHook) + Rest(g)
  {
    hide Header, AllSets, BaseChain, NatTable, Ip6Table;
  }

  /** The lines of a chain, its own head aside, open no chain. */
  lemma ChainHeads(g: Generation, h: Hook)
    ensures BaseChain(g, h) == [HeadOf(h)] + BaseChain(g, h)[1..] && NoHeads(BaseChain(g, h)[1..])
  {
    var ls := BaseChain(g, h);
    hide LayersFor, RuleTokens;
    forall i | 1 <= i < |ls| ensures NoHeads([ls[i]]) && [ls[i]][0] == ls[i] {
      assert ls[i].indent == 8 || ls[i] == CLOSE;
      NotAHead(ls[i]);
    }
    assert NoHeads(ls[1..]) by {
      hide HeadOf;
      forall i | 0 <= i < |ls[1..]| ensures NoHeads([ls[1..][i]]) {
        assert ls[1..][i] == ls[i + 1];
      }
    }
  }

  lemma {:induction false} FirstAt(a: seq<TextLine>, l: TextLine, b: seq<TextLine>)
    requires l !in a
    ensures LineAt(a + [l] + b, l) == |a|
  {
    var all := a + [l] + b;
    assert all[|a|] == l;
    assert forall i :: 0 <= i < |a| ==> all[i] == a[i];
  }

  lemma ChainParts(g: Generation, h: Hook)
    ensures |BaseChain(g, h)| >= 3 && CLOSE !in ChainBody(g, h)
    ensures BaseChain(g, h) == [HeadOf(h), BaseChain(g, h)[1]] + ChainBody(g, h) + [CLOSE]
  {
    var ls, body := BaseChain(g, h), ChainBody(g, h);
    hide LayersFor, RuleTokens, HookText;
    forall i | 0 <= i < |body| ensures body[i] != CLOSE {
      assert body[i] == ls[i + 2] && body[i].indent == 8;
    }
  }

  lemma BodyBetween(a: seq<TextLine>, declared: TextLine, body: seq<TextLine>, b: seq<TextLine>, h: Hook)
    requires HeadOf(h) !in a && CLOSE !in body
    ensures BodyOf(a + ([HeadOf(h), declared] + body + [CLOSE]) + b, h) == body
  {
    var head := HeadOf(h);
    hide HeadOf, LineAt;
    var all := a + ([head, declared] + body + [CLOSE]) + b;
    var after := body + [CLOSE] + b;
    assert all == a + [head] + ([declared] + after);
    FirstAt(a, head, [declared] + after);
    assert all[|a| + 2..] == after;
    FirstAt(body, CLOSE, b);
    assert after[..|body|] == body;
  }

  /** The body of a chain is found behind anything that does not open it. */
  lemma BodyFound(g: Generation, h: Hook, a: seq<TextLine>, b: seq<TextLine>)
    requires HeadOf(h) !in a
    ensures BodyOf(a + BaseChain(g, h) + b, h) == ChainBody(g, h)
  {
    hide HeadOf, BaseChain, ChainBody, BodyOf;
    ChainParts(g, h);
    BodyBetween(a, BaseChain(g, h)[1], ChainBody(g, h), b, h);
  }

  /** A base chain other than this one does not open this one. */
  lemma OtherChain(g: Generation, h: Hook, k: Hook)
    requires h != k
    ensures HeadOf(h) !in BaseChain(g, k)
  {
    ChainHeads(g, k);
    HeadsDiffer(h, k);
    hide HeadOf, BaseChain;
    var tail := BaseChain(g, k)[1..];
    assert HeadOf(h) !in tail;
    assert BaseChain(g, k) == [HeadOf(k)] + tail;
  }

  lemma NotInPreamble(g: Generation, h: Hook)
    ensures HeadOf(h) !in Preamble(g)
  {
    PreambleHasNoHeads(g);
    hide HeadOf, Preamble;
  }

  lemma BodyInScript(g: Generation, h: Hook)
    ensures BodyOf(Lines(g), h) == ChainBody(g, h)
  {
    hide HeadOf, BaseChain, Preamble, Rest, ChainBody, BodyOf, Lines;
    LinesInOrder(g);
    NotInPreamble(g, h);
    var p, i, o, f, r := Preamble(g), BaseChain(g, InputHook), BaseChain(g, OutputHook), BaseChain(g, ForwardHook), Rest(g);
    match h
    case InputHook =>
      BodyFound(g, h, p, o + f + r);
      assert p + i + o + f + r == p + i + (o + f + r);
    case OutputHook =>
      OtherChain(g, h, InputHook);
      BodyFound(g, h, p + i, f + r);
      assert p + i + o + f + r == p + i + o + (f + r);
    case ForwardHook =>
      OtherChain(g, h, InputHook);
      OtherChain(g, h, OutputHook);
      BodyFound(g, h, p + i + o, r);
  }

  lemma ScriptIsRead(g: Generation, h: Hook, x: Lexicon)
    requires GenerationOk(g) && Understands(x, g.spelling, g.input)
    ensures ReadScript(CompiledText(g), h, x) == Some(AllReadBack(LayersFor(g.input, h).Rules()))
    ensures forall i :: 0 <= i < |LayersFor(g.input, h).Rules()| ==> Written(LayersFor(g.input, h).Rules()[i].matches)
  {
    hide GenerationOk, Understands, LayersFor, Written, ReadChain, AllReadBack, ChainBody, Lines, BodyOf, Lex, CompiledText;
    TextIsCut(g);
    BodyInScript(g, h);
    ChainIsRead(g, h, x);
  }

  /** What the text of a script says about a packet: for every packet and mark, each chain's exact meaning. */
  lemma ScriptMeansItsChains(g: Generation, h: Hook, x: Lexicon, p: Packet, mark: bv32)
    requires GenerationOk(g) && Understands(x, g.spelling, g.input)
    ensures ReadScript(CompiledText(g), h, x).Some?
    ensures var rules := ReadScript(CompiledText(g), h, x).value;
      && (Evaluate(rules, p, mark).decision.Accepted? <==> Admits(g.input, h, p, mark))
      && Evaluate(rules, p, mark) == Evaluate(LayersFor(g.input, h).Rules(), p, mark)
  {
    assert Faithful(g.input.e);
    hide GenerationOk, LayersFor, Written, Understands, AllReadBack, ReadScript, CompiledText, Admits, Faithful, Evaluate;
    ScriptIsRead(g, h, x);
    SameVerdicts(LayersFor(g.input, h).Rules(), p, mark);
    ChainsAreExact(g.input, h, p, mark);
  }
}
