/**
 What the ownership validator refuses, in terms of the letters of a script: words with any of the four
 punctuation marks around them, in any case, between blanks, newlines and semicolons.
 */
module ScriptRefusals {
  import opened Wrappers
  import opened ScriptGuard

  // ---- Words ----

  predicate Mark(c: char) {
    c == '{' || c == '}' || c == ';' || c == ','
  }

  predicate Marks(s: string) {
    forall i :: 0 <= i < |s| ==> Mark(s[i])
  }

  /** The same letters, the first text in any case. */
  predicate SameLetters(a: string, b: string) {
    |a| == |b| && forall i :: 0 <= i < |a| ==> a[i] == b[i] || ('A' <= a[i] <= 'Z' && a[i] - 'A' + 'a' == b[i])
  }

  /** The word with its punctuation, around exactly this text. */
  ghost predicate Around(w: string, core: string) {
    exists before: string, after: string :: Marks(before) && Marks(after) && w == before + core + after
  }

  ghost predicate Spells(w: string, k: string) {
    exists core: string :: Around(w, core) && SameLetters(core, k)
  }

  /** Small letters, digits and underscores. */
  predicate Small(k: string) {
    k != "" && forall i :: 0 <= i < |k| ==> 'a' <= k[i] <= 'z' || '0' <= k[i] <= '9' || k[i] == '_'
  }

  lemma {:induction false} LeftMarks(s: string) returns (before: string)
    ensures Marks(before) && s == before + TrimLeft(s)
    ensures TrimLeft(s) != "" ==> !Mark(TrimLeft(s)[0])
  {
    if s != "" && Punctuation(s[0]) {
      var rest := LeftMarks(s[1..]);
      before := [s[0]] + rest;
      assert s == [s[0]] + s[1..];
    } else {
      before := "";
    }
  }

  lemma {:induction false} RightMarks(s: string) returns (after: string)
    ensures Marks(after) && s == TrimRight(s) + after
    ensures TrimRight(s) != "" ==> !Mark(TrimRight(s)[|TrimRight(s)| - 1])
    decreases |s|
  {
    if s != "" && Punctuation(s[|s| - 1]) {
      var rest := RightMarks(s[..|s| - 1]);
      after := rest + [s[|s| - 1]];
      assert s == s[..|s| - 1] + [s[|s| - 1]];
    } else {
      after := "";
    }
  }

  lemma IdentifierAround(w: string)
    ensures Around(w, Identifier(w))
  {
    var before := LeftMarks(w);
    var after := RightMarks(TrimLeft(w));
    assert w == before + Identifier(w) + after;
  }

  lemma {:induction false} TrimsLeft(before: string, s: string)
    requires Marks(before) && (s == "" || !Mark(s[0]))
    ensures TrimLeft(before + s) == s
  {
    if before == "" {
      assert before + s == s;
    } else {
      assert (before + s)[0] == before[0] && (before + s)[1..] == before[1..] + s;
      TrimsLeft(before[1..], s);
    }
  }

  lemma {:induction false} TrimsRight(s: string, after: string)
    requires Marks(after) && (s == "" || !Mark(s[|s| - 1]))
    ensures TrimRight(s + after) == s
    decreases |after|
  {
    if after == "" {
      assert s + after == s;
    } else {
      var t := s + after;
      assert t[|t| - 1] == after[|after| - 1] && t[..|t| - 1] == s + after[..|after| - 1];
      TrimsRight(s, after[..|after| - 1]);
    }
  }

  lemma AroundIdentifier(w: string, core: string)
    requires Around(w, core) && core != "" && !Mark(core[0]) && !Mark(core[|core| - 1])
    ensures Identifier(w) == core
  {
    var before: string, after: string :| Marks(before) && Marks(after) && w == before + core + after;
    assert w == before + (core + after) && (core + after)[0] == core[0];
    TrimsLeft(before, core + after);
    TrimsRight(core, after);
  }

  /** A keyword is read off a word exactly where the word spells it. */
  lemma KeywordMeans(w: string, k: string)
    requires Small(k)
    ensures Keyword(w) == k <==> Spells(w, k)
  {
    IdentifierAround(w);
    if Keyword(w) == k {
      assert SameLetters(Identifier(w), k);
    }
    if Spells(w, k) {
      var core: string :| Around(w, core) && SameLetters(core, k);
      assert !Mark(core[0]) && !Mark(core[|core| - 1]);
      AroundIdentifier(w, core);
      assert Lower(core) == k;
    }
  }

  /** Likewise an identifier, in its own case. */
  lemma IdentifierMeans(w: string, k: string)
    requires Small(k)
    ensures Identifier(w) == k <==> Around(w, k)
  {
    IdentifierAround(w);
    if Around(w, k) {
      AroundIdentifier(w, k);
    }
  }

  // ---- Statements ----

  ghost predicate NamesOwned(family: string, table: string) {
    || (Spells(family, "inet") && Around(table, "nftfw_filter"))
    || (Spells(family, "ip") && Around(table, "nftfw_nat"))
    || (Spells(family, "ip6") && Around(table, "nftfw_filter6"))
  }

  ghost predicate Directive(w: string) {
    Spells(w, "include") || Spells(w, "define") || Spells(w, "redefine")
  }

  /** Commands that look or copy. */
  ghost predicate Query(w: string) {
    || Spells(w, "get") || Spells(w, "list") || Spells(w, "import") || Spells(w, "export") || Spells(w, "monitor")
    || Spells(w, "describe")
  }

  /** Commands that change something. */
  ghost predicate Change(w: string) {
    || Spells(w, "add") || Spells(w, "create") || Spells(w, "delete") || Spells(w, "destroy") || Spells(w, "flush")
    || Spells(w, "insert") || Spells(w, "rename") || Spells(w, "replace") || Spells(w, "reset")
  }

  ghost predicate TableWord(w: string) {
    Spells(w, "table") || Spells(w, "tables")
  }

  ghost predicate OneObject(w: string) {
    || Spells(w, "table") || Spells(w, "chain") || Spells(w, "rule") || Spells(w, "set") || Spells(w, "map") || Spells(w, "element")
    || Spells(w, "counter") || Spells(w, "quota") || Spells(w, "limit") || Spells(w, "flowtable") || Spells(w, "synproxy")
  }

  ghost predicate ManyObjects(w: string) {
    || Spells(w, "tables") || Spells(w, "chains") || Spells(w, "rules") || Spells(w, "sets") || Spells(w, "maps") || Spells(w, "elements")
    || Spells(w, "counters") || Spells(w, "quotas") || Spells(w, "limits") || Spells(w, "flowtables") || Spells(w, "synproxies")
  }

  /** What the changing commands may change, one or many. */
  ghost predicate ObjectWord(w: string) {
    OneObject(w) || ManyObjects(w)
  }

  /** A directive, or the word table without an owned table behind it. */
  ghost predicate BadWord(ws: seq<string>, i: nat)
    requires i < |ws|
  {
    Directive(ws[i]) || (Spells(ws[i], "table") && !(i + 2 < |ws| && NamesOwned(ws[i + 1], ws[i + 2])))
  }

  /**
   A statement that could reach outside the product's own tables: it names a table that is not one of them,
   pulls in text from elsewhere, asks instead of changing, or changes anything but an object of an owned
   table; nor may an owned table be renamed.
   */
  ghost predicate Harmful(ws: seq<string>) {
    || (exists i: nat :: i < |ws| && BadWord(ws, i))
    || (ws != [] && Query(ws[0]))
    || (ws != [] && Change(ws[0]) && !(|ws| >= 4 && ObjectWord(ws[1]) && NamesOwned(ws[2], ws[3]) && !(Spells(ws[0], "rename") && TableWord(ws[1]))))
  }

  // ---- The validator's word lists ----

  lemma DirectiveMeans(w: string)
    ensures Directive(w) <==> Keyword(w) in DIRECTIVES
  {
    hide Keyword, Spells;
    KeywordMeans(w, "include");
    KeywordMeans(w, "define");
    KeywordMeans(w, "redefine");
  }

  lemma QueryMeans(w: string)
    ensures Query(w) <==> Keyword(w) in MANAGEMENT && Keyword(w) !in MUTATIONS
  {
    hide Keyword, Spells;
    KeywordMeans(w, "get");
    KeywordMeans(w, "list");
    KeywordMeans(w, "import");
    KeywordMeans(w, "export");
    KeywordMeans(w, "monitor");
    KeywordMeans(w, "describe");
  }

  lemma ChangeMeans(w: string)
    ensures Change(w) <==> Keyword(w) in MUTATIONS
  {
    hide Keyword, Spells;
    KeywordMeans(w, "add");
    KeywordMeans(w, "create");
    KeywordMeans(w, "delete");
    KeywordMeans(w, "destroy");
    KeywordMeans(w, "flush");
    KeywordMeans(w, "insert");
    KeywordMeans(w, "rename");
    KeywordMeans(w, "replace");
    KeywordMeans(w, "reset");
  }

  lemma OneObjectMeans(w: string)
    ensures OneObject(w) <==> Keyword(w) in OBJECTS
  {
    hide Keyword, Spells;
    KeywordMeans(w, "table");
    KeywordMeans(w, "chain");
    KeywordMeans(w, "rule");
    KeywordMeans(w, "set");
    KeywordMeans(w, "map");
    KeywordMeans(w, "element");
    KeywordMeans(w, "counter");
    KeywordMeans(w, "quota");
    KeywordMeans(w, "limit");
    KeywordMeans(w, "flowtable");
    KeywordMeans(w, "synproxy");
  }

  lemma ManyObjectsMean(w: string)
    ensures ManyObjects(w) <==> Keyword(w) in PLURALS
  {
    hide Keyword, Spells;
    KeywordMeans(w, "tables");
    KeywordMeans(w, "chains");
    KeywordMeans(w, "rules");
    KeywordMeans(w, "sets");
    KeywordMeans(w, "maps");
    KeywordMeans(w, "elements");
    KeywordMeans(w, "counters");
    KeywordMeans(w, "quotas");
    KeywordMeans(w, "limits");
    KeywordMeans(w, "flowtables");
    KeywordMeans(w, "synproxies");
  }

  lemma PluralsAreObjects(k: string)
    requires k in PLURALS
    ensures PLURALS[k] in OBJECTS && (PLURALS[k] == "table" <==> k == "tables")
  {
  }

  lemma ObjectMeans(w: string)
    ensures ObjectWord(w) <==> ObjectOf(w) in OBJECTS
    ensures TableWord(w) <==> ObjectOf(w) == "table"
  {
    OneObjectMeans(w);
    ManyObjectsMean(w);
    KeywordMeans(w, "table");
    KeywordMeans(w, "tables");
    assert "table" !in PLURALS && "tables" in PLURALS;
    hide Keyword, Spells, OneObject, ManyObjects, OBJECTS;
    if Keyword(w) in PLURALS {
      PluralsAreObjects(Keyword(w));
    }
    hide PLURALS;
  }

  lemma OwnedMeans(family: string, table: string)
    ensures NamesOwned(family, table) <==> Owned(Keyword(family), Identifier(table))
  {
    KeywordMeans(family, "inet");
    KeywordMeans(family, "ip");
    KeywordMeans(family, "ip6");
    IdentifierMeans(table, "nftfw_filter");
    IdentifierMeans(table, "nftfw_nat");
    IdentifierMeans(table, "nftfw_filter6");
    hide Keyword, Identifier, Spells, Around;
    assert OWNED[0] == Table("inet", "nftfw_filter") && OWNED[1] == Table("ip", "nftfw_nat") && OWNED[2] == Table("ip6", "nftfw_filter6");
  }

  /** A statement passes exactly if it is not harmful. */
  lemma StatementMeans(ws: seq<string>)
    requires ws != []
    ensures CommandOk(ws) && (forall i :: 0 <= i < |ws| ==> TokenOk(ws, i)) <==> !Harmful(ws)
  {
    forall i: nat | i < |ws| ensures TokenOk(ws, i) <==> !BadWord(ws, i) {
      DirectiveMeans(ws[i]);
      KeywordMeans(ws[i], "table");
      if i + 2 < |ws| {
        OwnedMeans(ws[i + 1], ws[i + 2]);
      }
      hide Keyword, Identifier, Spells, Directive, NamesOwned, Owned, DIRECTIVES;
    }
    CommandMeans(ws);
    hide Keyword, Identifier, Spells, Directive, NamesOwned, Owned, Query, Change, ObjectWord, TableWord, TokenOk, CommandOk, BadWord;
  }

  lemma CommandMeans(ws: seq<string>)
    requires ws != []
    ensures CommandOk(ws) <==>
      && !Query(ws[0])
      && (Change(ws[0]) ==> |ws| >= 4 && ObjectWord(ws[1]) && NamesOwned(ws[2], ws[3]) && !(Spells(ws[0], "rename") && TableWord(ws[1])))
  {
    QueryMeans(ws[0]);
    ChangeMeans(ws[0]);
    KeywordMeans(ws[0], "rename");
    if |ws| >= 2 {
      ObjectMeans(ws[1]);
    }
    if |ws| >= 4 {
      OwnedMeans(ws[2], ws[3]);
    }
    ChangesAreManaged(Keyword(ws[0]));
    hide Keyword, Identifier, Spells, NamesOwned, Owned, Query, Change, ObjectWord, TableWord, ObjectOf, MANAGEMENT, MUTATIONS, OBJECTS;
  }

  lemma ChangesAreManaged(k: string)
    ensures k in MUTATIONS ==> k in MANAGEMENT
  {
  }

  // ---- Text ----

  predicate Space(c: char) {
    c == ' ' || c == '\t' || c == '\n' || c == '\r' || c == '\U{000B}' || c == '\U{000C}'
  }

  predicate Spaces(s: string) {
    forall i :: 0 <= i < |s| ==> Space(s[i])
  }

  predicate Word(w: string) {
    w != "" && forall i :: 0 <= i < |w| ==> !Space(w[i])
  }

  /** Words with a gap in front of each and one at the end; only the outer two may be empty. */
  predicate LaidOut(gaps: seq<string>, ws: seq<string>) {
    && |gaps| == |ws| + 1
    && (forall i :: 0 <= i < |gaps| ==> Spaces(gaps[i]) && (0 < i < |ws| ==> gaps[i] != ""))
    && (forall i :: 0 <= i < |ws| ==> Word(ws[i]))
  }

  function Laid(gaps: seq<string>, ws: seq<string>): string
    requires |gaps| == |ws| + 1
  {
    if ws == [] then gaps[0] else gaps[0] + (ws[0] + Laid(gaps[1..], ws[1..]))
  }

  lemma {:induction false} GapVanishes(gap: string, s: string)
    requires Spaces(gap)
    ensures Split(Words, gap + s, "") == Split(Words, s, "")
  {
    if gap == "" {
      assert gap + s == s;
    } else {
      assert (gap + s)[0] == gap[0] && (gap + s)[1..] == gap[1..] + s;
      GapVanishes(gap[1..], s);
    }
  }

  lemma WordFirst(w: string, s: string)
    requires Word(w) && (s == "" || Space(s[0]))
    ensures Split(Words, w + s, "") == [w] + Split(Words, s, "")
  {
    assert Solid(Words, w);
    if s == "" {
      assert w + s == w && "" + w == w;
      SplitSolid(Words, w, "");
    } else {
      assert w + s == w + [s[0]] + s[1..];
      SplitWord(Words, w, s[0], s[1..]);
      assert s == [s[0]] + s[1..];
    }
  }

  /** Splitting at blanks gives back the words. */
  lemma {:induction false} LaidSplits(gaps: seq<string>, ws: seq<string>)
    requires LaidOut(gaps, ws)
    ensures Split(Words, Laid(gaps, ws), "") == ws
    decreases |ws|
  {
    if ws == [] {
      GapVanishes(gaps[0], "");
      assert gaps[0] + "" == gaps[0];
    } else {
      var rest := Laid(gaps[1..], ws[1..]);
      assert forall i :: 0 <= i < |gaps[1..]| ==> gaps[1..][i] == gaps[i + 1];
      LaidSplits(gaps[1..], ws[1..]);
      GapVanishes(gaps[0], ws[0] + rest);
      RestStarts(gaps[1..], ws[1..]);
      WordFirst(ws[0], rest);
      assert ws == [ws[0]] + ws[1..];
    }
  }

  lemma RestStarts(gaps: seq<string>, ws: seq<string>)
    requires |gaps| == |ws| + 1 && Spaces(gaps[0]) && (ws != [] ==> gaps[0] != "")
    ensures Laid(gaps, ws) == "" || Space(Laid(gaps, ws)[0])
  {
  }

  /** No newline or semicolon stands in it. */
  predicate OneStatement(s: string) {
    forall i :: 0 <= i < |s| ==> s[i] != '\n' && s[i] != ';'
  }

  lemma StatementStands(before: string, c: char, statement: string, d: char, after: string)
    requires OneStatement(statement) && statement != "" && (c == '\n' || c == ';') && (d == '\n' || d == ';')
    ensures statement in Split(Statements, before + [c] + statement + [d] + after, "")
  {
    var rest := statement + [d] + after;
    assert before + [c] + statement + [d] + after == before + [c] + rest;
    SplitAt(Statements, before, c, rest, "");
    SplitWord(Statements, statement, d, after);
    assert Split(Statements, rest, "")[0] == statement;
  }

  /** Two words in a row empty the whole ruleset. */
  ghost predicate FlushesRuleset(fields: seq<string>) {
    exists i: nat :: i + 1 < |fields| && FlushAt(fields, i)
  }

  ghost predicate FlushAt(fields: seq<string>, i: nat)
    requires i + 1 < |fields|
  {
    Spells(fields[i], "flush") && Spells(fields[i + 1], "ruleset")
  }

  ghost predicate SomeHarm(statements: seq<string>) {
    exists i :: 0 <= i < |statements| && Harmful(Split(Words, statements[i], ""))
  }

  /** Accepted exactly without a flush of the whole ruleset and without a harmful statement. */
  lemma AcceptsMeans(script: string)
    ensures Accepts(script) <==>
      && !Spaces(script) && Stripped(script).Some?
      && !FlushesRuleset(Split(Words, Spaced(Stripped(script).value), ""))
      && !SomeHarm(Split(Statements, Stripped(script).value, ""))
  {
    assert AllBlank(script) <==> Spaces(script);
    if Stripped(script).Some? {
      var clean := Stripped(script).value;
      FieldsMean(Split(Words, Spaced(clean), ""));
      StatementsMean(Split(Statements, clean, ""));
      hide StatementOk, SomeHarm, FlushesRuleset, Split, NoFlush, Stripped, Spaced;
    }
  }

  lemma StatementsMean(statements: seq<string>)
    ensures (forall i :: 0 <= i < |statements| ==> StatementOk(statements[i])) <==> !SomeHarm(statements)
  {
    forall i | 0 <= i < |statements| ensures StatementOk(statements[i]) <==> !Harmful(Split(Words, statements[i], "")) {
      HarmMeans(statements[i]);
    }
    hide StatementOk, Harmful, Split;
  }

  lemma HarmMeans(statement: string)
    ensures StatementOk(statement) <==> !Harmful(Split(Words, statement, ""))
  {
    var ws := Split(Words, statement, "");
    if ws != [] {
      StatementMeans(ws);
    }
    hide CommandOk, TokenOk, BadWord, Query, Change, Split;
  }

  lemma FieldsMean(fields: seq<string>)
    ensures NoFlush(fields) <==> !FlushesRuleset(fields)
  {
    forall i | 0 <= i < |fields| ensures (Keyword(fields[i]) == "flush" <==> Spells(fields[i], "flush")) && (Keyword(fields[i]) == "ruleset" <==> Spells(fields[i], "ruleset")) {
      KeywordMeans(fields[i], "flush");
      KeywordMeans(fields[i], "ruleset");
    }
    hide Keyword, Spells;
    forall i: nat | i + 1 < |fields| ensures FlushAt(fields, i) <==> Keyword(fields[i]) == "flush" && Keyword(fields[i + 1]) == "ruleset" {
    }
    if !NoFlush(fields) {
      var i :| 0 <= i < |fields| - 1 && Keyword(fields[i]) == "flush" && Keyword(fields[i + 1]) == "ruleset";
      assert FlushAt(fields, i);
    }
  }

  /** Whatever stands around it, a harmful statement between newlines or semicolons is refused. */
  lemma HarmIsRefused(script: string, before: string, c: char, gaps: seq<string>, ws: seq<string>, d: char, after: string)
    requires LaidOut(gaps, ws) && ws != [] && OneStatement(Laid(gaps, ws)) && Harmful(ws)
    requires (c == '\n' || c == ';') && (d == '\n' || d == ';')
    requires Stripped(script) == Some(before + [c] + Laid(gaps, ws) + [d] + after)
    ensures !Accepts(script)
  {
    LaidSplits(gaps, ws);
    NotEmpty(gaps, ws);
    StatementStands(before, c, Laid(gaps, ws), d, after);
    AcceptsMeans(script);
    hide Stripped, Split, Harmful, Accepts, Laid, LaidOut, OneStatement;
    var statements := Split(Statements, Stripped(script).value, "");
    var i :| 0 <= i < |statements| && statements[i] == Laid(gaps, ws);
  }

  lemma NotEmpty(gaps: seq<string>, ws: seq<string>)
    requires LaidOut(gaps, ws) && ws != []
    ensures Laid(gaps, ws) != ""
  {
    assert ws[0] != "";
  }

  predicate SpaceOrEnd(c: char) {
    Space(c) || c == ';'
  }

  lemma FlushStands(a: string, x: char, first: string, gap: string, second: string, rest: string)
    requires Space(x) && Word(first) && Word(second) && Spaces(gap) && gap != "" && (rest == "" || Space(rest[0]))
    requires Spells(first, "flush") && Spells(second, "ruleset")
    ensures FlushesRuleset(Split(Words, a + [x] + (first + (gap + (second + rest))), ""))
  {
    hide Spells, Word;
    var tail := gap + (second + rest);
    SplitAt(Words, a, x, first + tail, "");
    WordFirst(first, tail);
    GapVanishes(gap, second + rest);
    WordFirst(second, rest);
    hide Split;
    var fields, n := Split(Words, a + [x] + (first + tail), ""), |Split(Words, a, "")|;
    assert fields == Split(Words, a, "") + ([first] + ([second] + Split(Words, rest, "")));
    assert fields[n] == first && fields[n + 1] == second;
    assert FlushAt(fields, n);
  }

  lemma SpacedParts(before: string, c: char, first: string, gap: string, second: string, after: string)
    requires OneStatement(first) && OneStatement(second)
    ensures Spaced(before + [c] + (first + gap + second) + after) ==
      Spaced(before) + [if c == ';' then ' ' else c] + (first + (Spaced(gap) + (second + Spaced(after))))
  {
    assert Spaced(first) == first && Spaced(second) == second;
  }

  /** And so is a flush of the whole ruleset, even over a line or statement end. */
  lemma FlushIsRefused(script: string, before: string, c: char, first: string, gap: string, second: string, d: char, after: string)
    requires Word(first) && Word(second) && OneStatement(first) && OneStatement(second)
    requires Spells(first, "flush") && Spells(second, "ruleset")
    requires SpaceOrEnd(c) && SpaceOrEnd(d) && gap != "" && forall i :: 0 <= i < |gap| ==> SpaceOrEnd(gap[i])
    requires Stripped(script) == Some(before + [c] + (first + gap + second) + ([d] + after))
    ensures !Accepts(script)
  {
    SpacedParts(before, c, first, gap, second, [d] + after);
    assert Spaced([d] + after)[0] == if d == ';' then ' ' else d;
    assert Spaces(Spaced(gap));
    FlushStands(Spaced(before), if c == ';' then ' ' else c, first, Spaced(gap), second, Spaced([d] + after));
    hide Spaced, Stripped, Split, FlushesRuleset, Spells, Word;
    AcceptsMeans(script);
  }
}
