/** One generation that meets every condition of the script theorems, and a lexicon that fits it. */
module ScriptExample {
  import opened Wrappers
  import opened Numerals
  import opened ProvenanceIds
  import opened PolicyModel
  import opened PacketRules
  import opened PolicyCompiler
  import opened ScriptLexer
  import opened CompiledScript
  import opened ScriptClauses
  import opened ScriptAcceptance
  import opened ScriptReader
  import opened ScriptMeaning

  import ScriptGuard

  // ---- A spelling of every prefix ----

  /** The address as one number behind a mark of its family; plain, but nothing is lost. */
  function Spell(p: Prefix): string {
    (if p.address.V4? then "4." else "6:") + Decimal(p.address.n) + "/" + Decimal(p.bits)
  }

  function Unspell(s: string): Prefix {
    if |s| < 2 then Prefix(V4(0), 0)
    else
      var k := Find(s[2..], {'/'});
      if k + 3 > |s| then Prefix(V4(0), 0)
      else
        var n, bits := Natural(s[2..k + 2]), Natural(s[k + 3..]);
        Prefix(if s[0] == '4' then V4(n) else V6(n), bits)
  }

  lemma CutAt(head: string, n: string, bits: string)
    requires |head| == 2 && AllDigits(n)
    ensures var s := head + n + "/" + bits;
      Find(s[2..], {'/'}) == |n| && s[2..|n| + 2] == n && s[|n| + 3..] == bits && s[0] == head[0] && s[|n| + 2] == '/'
  {
    var s := head + n + "/" + bits;
    assert s[2..] == n + ['/'] + bits;
    FindsAt(n, '/', bits, {'/'});
    hide Find;
  }

  lemma SpelledBack(p: Prefix)
    ensures Unspell(Spell(p)) == p
  {
    hide Decimal, ReadDigits, Find;
    CutAt(if p.address.V4? then "4." else "6:", Decimal(p.address.n), Decimal(p.bits));
    DecimalReads(p.address.n);
    DecimalReads(p.bits);
    assert AllDigits(Decimal(p.address.n)) && AllDigits(Decimal(p.bits));
  }

  lemma SpelledAsPrefix(p: Prefix)
    ensures ScriptGuard.PrefixText(Spell(p))
  {
    hide Decimal, Find;
    CutAt(if p.address.V4? then "4." else "6:", Decimal(p.address.n), Decimal(p.bits));
  }

  function Spellings(): Spelling {
    Spelling((p: Prefix) => Spell(p), "1", (c: string, k: nat) => "note")
  }

  // ---- The generation ----

  function Links(): seq<Interface> {
    [Interface("eth0", Uplink, "", [], "", 1), Interface("wg0", Vpn, "", [], "", 2)]
  }

  function Configured(): Config {
    Config(VpnOnly, Links(), [], [], [], "wg0", 51820, 1, 1360, [])
  }

  function Runtime(): Input {
    Input(Effective(Configured(), map[], map[]), [], [], [], [], [], [])
  }

  function Example(): Generation {
    Generation(Runtime(), [], [], [], 1, "", Spellings())
  }

  lemma NamesAreGood()
    ensures InterfaceNameOk("eth0") && InterfaceNameOk("wg0") && IdentityOk("eth0") && IdentityOk("wg0") && "eth0" != "wg0"
  {
  }

  lemma LinksAreGood()
    ensures InterfacesOk(Links()) && OneUplink(Links())
  {
    NamesAreGood();
    hide InterfaceNameOk, IdentityOk;
    var ls := Links();
    assert ls[0].role.Uplink? && ls[1].role.Vpn?;
    var xs := Assignments(ls);
    assert xs[0] == Assignment("eth0", 1, false) && xs[1] == Assignment("wg0", 2, false);
  }

  lemma ConfiguredIsValid()
    ensures Validated(Configured())
  {
    NamesAreGood();
    LinksAreGood();
    var c := Configured();
    hide InterfaceNameOk, InterfacesOk, OneUplink;
    assert c.interfaces[1].name == c.vpn && c.interfaces[1].role.Vpn?;
  }

  lemma SpellingIsGood()
    ensures SpellingOk(Spellings())
  {
    var sp := Spellings();
    forall p ensures ScriptGuard.PrefixText(sp.prefix(p)) {
      SpelledAsPrefix(p);
    }
    assert NameFits("note") && MarkText("1");
  }

  function Known(): Lexicon {
    Lexicon((s: string) => Unspell(s), (s: string) => 1,
      map["blocked_v4" := (Blocked4, []), "blocked_v6" := (Blocked6, []), "trusted_v4" := (Trusted4, []),
          "trusted_v6" := (Trusted6, []), "wg_bootstrap_v4" := (Bootstrap4, []), "wg_bootstrap_v6" := (Bootstrap6, [])])
  }

  lemma SetsAreKnown(n: SetName)
    ensures SetText(n) in Known().sets && Known().sets[SetText(n)] == (n, [])
  {
  }

  /** The conditions of the script theorems can all be met at once. */
  lemma ConditionsCanBeMet()
    ensures GenerationOk(Example()) && Understands(Known(), Spellings(), Runtime())
  {
    ConfiguredIsValid();
    SpellingIsGood();
    var x, sp := Known(), Spellings();
    forall p ensures x.prefix(sp.prefix(p)) == p {
      SpelledBack(p);
    }
    forall n: SetName ensures SetText(n) in x.sets && x.sets[SetText(n)] == (n, Holding(Runtime(), n)) {
      SetsAreKnown(n);
    }
    hide Validated, SpellingOk, Spell, Unspell, SetText;
  }

  /** So the text of a script is accepted and read, for this generation as for any other. */
  lemma ExampleIsRead(h: Hook)
    ensures ScriptGuard.Accepts(CompiledText(Example()))
    ensures ReadScript(CompiledText(Example()), h, Known()).Some?
  {
    ConditionsCanBeMet();
    hide GenerationOk, Understands, CompiledText, ReadScript, ScriptGuard.Accepts, Example, Known, Runtime, Spellings;
    assert Example().spelling == Spellings() && Example().input == Runtime() by {
      ExampleParts();
    }
    CompiledIsAccepted(Example());
    ScriptIsRead(Example(), h, Known());
  }

  lemma ExampleParts()
    ensures Example().spelling == Spellings() && Example().input == Runtime()
  {
  }
}
