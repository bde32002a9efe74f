/** Scripts line by line, and the lines that the ownership validator lets stand wherever they are. */
module ScriptLines {
  import opened Wrappers
  import opened ScriptGuard

  /** A bare word, or a quoted text with at most a semicolon behind it. */
  datatype Token = Word(text: string) | Str(text: string, after: string)

  datatype TextLine = Remark(text: string) | Statement(indent: nat, tokens: seq<Token>)

  // ---- Text ----

  function TokenPieces(t: Token): seq<Piece> {
    match t
    case Word(x) => [Plain(x)]
    case Str(x, after) => [Quoted(x), Plain(after)]
  }

  function TokensPieces(ts: seq<Token>): seq<Piece> {
    if ts == [] then [Plain("\n")]
    else TokenPieces(ts[0]) + [Plain(if |ts| == 1 then "\n" else " ")] + if |ts| == 1 then [] else TokensPieces(ts[1..])
  }

  function Blanks(n: nat): (r: string)
    ensures |r| == n && forall i :: 0 <= i < n ==> r[i] == ' '
  {
    seq(n, i => ' ')
  }

  function LinePieces(l: TextLine): seq<Piece> {
    match l
    case Remark(t) => [Comment(t)]
    case Statement(n, ts) => [Plain(Blanks(n))] + TokensPieces(ts)
  }

  function LineText(l: TextLine): string {
    Script(LinePieces(l))
  }

  function Text(ls: seq<TextLine>): string {
    if ls == [] then "" else LineText(ls[0]) + Text(ls[1..])
  }

  lemma {:induction false} TextNext(ls: seq<TextLine>, i: nat)
    requires i < |ls|
    ensures Text(ls[..i + 1]) == Text(ls[..i]) + LineText(ls[i])
  {
    hide LineText;
    if i == 0 {
      assert ls[..1] == [ls[0]] && Text([]) == "";
      assert LineText(ls[0]) + "" == LineText(ls[0]);
    } else {
      TextNext(ls[1..], i - 1);
      assert ls[..i + 1][1..] == ls[1..][..i] && ls[..i][1..] == ls[1..][..i - 1];
      Regroup(LineText(ls[0]), Text(ls[1..][..i - 1]), LineText(ls[i]));
    }
  }

  /** Writes a script line by line. */
  method WriteText(ls: seq<TextLine>) returns (r: string)
    ensures r == Text(ls)
  {
    r := "";
    for i := 0 to |ls|
      invariant r == Text(ls[..i])
    {
      TextNext(ls, i);
      r := r + LineText(ls[i]);
    }
    assert ls[..|ls|] == ls;
  }

  // ---- What is left of it after stripping ----

  function KeptToken(t: Token): string {
    match t
    case Word(x) => x
    case Str(_, after) => "\"_\"" + after
  }

  function KeptTokens(ts: seq<Token>): string {
    if ts == [] then "\n"
    else if |ts| == 1 then KeptToken(ts[0]) + "\n"
    else KeptToken(ts[0]) + " " + KeptTokens(ts[1..])
  }

  function KeptLine(l: TextLine): string {
    match l
    case Remark(_) => "\n"
    case Statement(n, ts) => Blanks(n) + KeptTokens(ts)
  }

  predicate TokenPlain(t: Token) {
    match t
    case Word(x) => PlainText(x)
    case Str(x, after) => PieceOk(Quoted(x)) && PlainText(after)
  }

  predicate LinePlain(l: TextLine) {
    match l
    case Remark(t) => PieceOk(Comment(t))
    case Statement(_, ts) => forall i :: 0 <= i < |ts| ==> TokenPlain(ts[i])
  }

  predicate AllOk(ps: seq<Piece>) {
    forall i :: 0 <= i < |ps| ==> PieceOk(ps[i])
  }

  lemma {:induction false} KeptAppend(ps: seq<Piece>, qs: seq<Piece>)
    ensures AllKept(ps + qs) == AllKept(ps) + AllKept(qs)
  {
    if ps == [] {
      assert ps + qs == qs;
    } else {
      assert (ps + qs)[0] == ps[0] && (ps + qs)[1..] == ps[1..] + qs;
      KeptAppend(ps[1..], qs);
    }
  }

  lemma TokenKept(t: Token)
    requires TokenPlain(t)
    ensures AllOk(TokenPieces(t)) && AllKept(TokenPieces(t)) == KeptToken(t)
  {
    match t
    case Word(x) =>
      assert [Plain(x)][1..] == [] && x + "" == x;
    case Str(x, after) =>
      OneKept(after);
      KeptAppend([Quoted(x)], [Plain(after)]);
      assert [Quoted(x)][1..] == [] && "\"_\"" + "" == "\"_\"";
      assert [Quoted(x)] + [Plain(after)] == [Quoted(x), Plain(after)];
  }

  lemma {:induction false} TokensKept(ts: seq<Token>)
    requires forall i :: 0 <= i < |ts| ==> TokenPlain(ts[i])
    ensures AllOk(TokensPieces(ts)) && AllKept(TokensPieces(ts)) == KeptTokens(ts)
  {
    OneKept("\n");
    OneKept(" ");
    if ts != [] {
      TokenKept(ts[0]);
      if |ts| == 1 {
        KeptAppend(TokenPieces(ts[0]), [Plain("\n")]);
        assert TokensPieces(ts) == TokenPieces(ts[0]) + [Plain("\n")];
      } else {
        TokensKept(ts[1..]);
        KeptAppend(TokenPieces(ts[0]), [Plain(" ")]);
        KeptAppend(TokenPieces(ts[0]) + [Plain(" ")], TokensPieces(ts[1..]));
      }
    }
  }

  lemma OneKept(t: string)
    requires PlainText(t)
    ensures AllOk([Plain(t)]) && AllKept([Plain(t)]) == t
  {
    assert [Plain(t)][1..] == [] && t + "" == t;
  }

  lemma LineKept(l: TextLine)
    requires LinePlain(l)
    ensures AllOk(LinePieces(l)) && AllKept(LinePieces(l)) == KeptLine(l)
  {
    match l
    case Remark(t) =>
      assert [Comment(t)][1..] == [] && "\n" + "" == "\n";
    case Statement(n, ts) =>
      OneKept(Blanks(n));
      TokensKept(ts);
      KeptAppend([Plain(Blanks(n))], TokensPieces(ts));
  }

  /** Stripping a line leaves its bare words, and a placeholder for each quoted text. */
  lemma {:induction false} StripsInFront(ps: seq<Piece>, rest: string)
    requires AllOk(ps)
    ensures Stripped(Script(ps) + rest) == Prepended(AllKept(ps), Stripped(rest))
  {
    if ps == [] {
      assert "" + rest == rest;
      PrependNothing(Stripped(rest));
    } else {
      StripsInFront(ps[1..], rest);
      Regroup(Rendered(ps[0]), Script(ps[1..]), rest);
      PieceStrips(ps[0], Script(ps[1..]) + rest);
      PrependTwice(Kept(ps[0]), AllKept(ps[1..]), Stripped(rest));
    }
  }

  // ---- Harmless words ----

  /** A word no check of the validator reacts to, wherever it stands. */
  predicate Harmless(w: string) {
    Keyword(w) !in MANAGEMENT && Keyword(w) !in DIRECTIVES && Keyword(w) != "table" && Keyword(w) != "ruleset"
  }

  predicate Mild(s: string) {
    forall i :: 0 <= i < |Split(Words, Spaced(s), "")| ==> Harmless(Split(Words, Spaced(s), "")[i])
  }

  lemma SpacedCut(word: string, s: string)
    requires Solid(Statements, word) && s != "" && Cuts(Statements, s[0])
    ensures Split(Words, Spaced(word + s), "") == Split(Words, word, "") + Split(Words, Spaced(s[1..]), "")
  {
    var c := if s[0] == ';' then ' ' else s[0];
    assert Spaced(word + s) == word + [c] + Spaced(s[1..]);
    SplitAt(Words, word, c, Spaced(s[1..]), "");
  }

  /** Every word of every statement is a word of the whole. */
  lemma {:induction false} StatementWords(s: string, word: string, k: nat, j: nat)
    requires Solid(Statements, word)
    requires k < |Split(Statements, s, word)| && j < |Split(Words, Split(Statements, s, word)[k], "")|
    ensures Split(Words, Split(Statements, s, word)[k], "")[j] in Split(Words, Spaced(word + s), "")
    decreases |s|
  {
    if s == "" {
      assert word + s == word && Spaced(word) == word;
    } else if Cuts(Statements, s[0]) {
      hide Spaced;
      SpacedCut(word, s);
      if |Flushed(word)| <= k {
        assert "" + s[1..] == s[1..];
        StatementWords(s[1..], "", k - |Flushed(word)|, j);
      }
    } else {
      assert word + [s[0]] + s[1..] == word + s;
      hide Spaced;
      StatementWords(s[1..], word + [s[0]], k, j);
    }
  }

  lemma HarmlessStatement(statement: string)
    requires forall j :: 0 <= j < |Split(Words, statement, "")| ==> Harmless(Split(Words, statement, "")[j])
    ensures StatementOk(statement)
  {
    hide Keyword, Split;
    var parts := Split(Words, statement, "");
    if parts != [] {
      assert MUTATIONS <= MANAGEMENT;
      assert Harmless(parts[0]);
      assert CommandOk(parts);
    }
  }

  lemma MildStatements(s: string)
    requires Mild(s)
    ensures forall k :: 0 <= k < |Split(Statements, s, "")| ==> StatementOk(Split(Statements, s, "")[k])
  {
    forall k | 0 <= k < |Split(Statements, s, "")| ensures StatementOk(Split(Statements, s, "")[k]) {
      var statement := Split(Statements, s, "")[k];
      hide StatementOk, Harmless;
      forall j | 0 <= j < |Split(Words, statement, "")| ensures Harmless(Split(Words, statement, "")[j]) {
        assert "" + s == s;
        StatementWords(s, "", k, j);
      }
      HarmlessStatement(statement);
    }
  }

  /** A mild text that ends its line changes nothing about the verdict on what follows. */
  lemma MildInFront(a: string, clean: string)
    requires Mild(a) && a != "" && a[|a| - 1] == '\n'
    ensures CleanOk(a + clean) <==> CleanOk(clean)
  {
    var body := a[..|a| - 1];
    assert a == body + ['\n'] + "" && a + clean == body + ['\n'] + clean;
    SplitAt(Statements, body, '\n', clean, "");
    SplitAt(Statements, body, '\n', "", "");
    assert Split(Statements, a + clean, "") == Split(Statements, a, "") + Split(Statements, clean, "") by {
      assert Split(Statements, "", "") == [];
    }
    SpacedAppend(a, clean);
    assert Spaced(a) == Spaced(body) + ['\n'] + "" && Spaced(a) + Spaced(clean) == Spaced(body) + ['\n'] + Spaced(clean);
    SplitAt(Words, Spaced(body), '\n', Spaced(clean), "");
    SplitAt(Words, Spaced(body), '\n', "", "");
    assert Split(Words, Spaced(a + clean), "") == Split(Words, Spaced(a), "") + Split(Words, Spaced(clean), "") by {
      assert Split(Words, "", "") == [];
    }
    MildStatements(a);
    NoFlushInFront(Split(Words, Spaced(a), ""), Split(Words, Spaced(clean), ""));
    hide Split, StatementOk, NoFlush, Mild, Spaced;
    StatementsInFront(Split(Statements, a, ""), Split(Statements, clean, ""));
  }

  lemma StatementsInFront(first: seq<string>, rest: seq<string>)
    requires forall i :: 0 <= i < |first| ==> StatementOk(first[i])
    ensures (forall i :: 0 <= i < |first + rest| ==> StatementOk((first + rest)[i])) <==>
      (forall i :: 0 <= i < |rest| ==> StatementOk(rest[i]))
  {
    hide StatementOk;
    var all := first + rest;
    assert forall i :: 0 <= i < |rest| ==> all[|first| + i] == rest[i];
  }

  lemma NoFlushInFront(ws: seq<string>, fields: seq<string>)
    requires forall i :: 0 <= i < |ws| ==> Harmless(ws[i])
    ensures NoFlush(ws + fields) <==> NoFlush(fields)
  {
    if ws == [] {
      assert ws + fields == fields;
    } else {
      assert "flush" in MANAGEMENT;
      hide Keyword;
      assert Harmless(ws[|ws| - 1]);
      assert NoFlush(ws) by {
        forall i | 0 <= i < |ws| - 1 ensures !(Keyword(ws[i]) == "flush" && Keyword(ws[i + 1]) == "ruleset") {
          assert Harmless(ws[i]);
        }
      }
      FlushInFront(ws, fields);
    }
  }

  // ---- Mild lines ----

  /** A word without the semicolon that may end it. */
  function Core(w: string): string {
    if w != "" && w[|w| - 1] == ';' then w[..|w| - 1] else w
  }

  /** No blanks, and no semicolon but perhaps a last one. */
  predicate OneWord(w: string) {
    && Core(w) != ""
    && forall i :: 0 <= i < |Core(w)| ==> !Blank(Core(w)[i]) && Core(w)[i] != ';'
  }

  predicate MildToken(t: Token) {
    TokenPlain(t) && OneWord(KeptToken(t)) && Harmless(Core(KeptToken(t)))
  }

  predicate MildTokens(ts: seq<Token>) {
    forall i :: 0 <= i < |ts| ==> MildToken(ts[i])
  }

  lemma CoreSplits(w: string, c: char, rest: string)
    requires OneWord(w) && (c == ' ' || c == '\n')
    ensures Split(Words, Spaced(w + [c] + rest), "") == [Core(w)] + Split(Words, Spaced(rest), "")
  {
    var core, tail := Core(w), Spaced(rest);
    assert Solid(Words, core) && Spaced(core) == core;
    if core == w {
      assert Spaced(w + [c] + rest) == core + [c] + tail;
      SplitWord(Words, core, c, tail);
    } else {
      assert w == core + [';'];
      assert Spaced(w + [c] + rest) == core + [' '] + ([c] + tail);
      SplitWord(Words, core, ' ', [c] + tail);
      assert ([c] + tail)[0] == c && ([c] + tail)[1..] == tail;
      assert Split(Words, [c] + tail, "") == Split(Words, tail, "");
    }
  }

  lemma {:induction false} MildTokensMild(ts: seq<Token>)
    requires MildTokens(ts)
    ensures Mild(KeptTokens(ts))
    ensures KeptTokens(ts) != "" && KeptTokens(ts)[|KeptTokens(ts)| - 1] == '\n'
  {
    hide Harmless, OneWord, TokenPlain;
    NewlineMild();
    if ts != [] {
      var w := KeptToken(ts[0]);
      if |ts| == 1 {
        assert w + "\n" == w + ['\n'] + "";
        CoreSplits(w, '\n', "");
        assert Split(Words, Spaced(""), "") == [];
      } else {
        MildTokensMild(ts[1..]);
        assert w + " " + KeptTokens(ts[1..]) == w + [' '] + KeptTokens(ts[1..]);
        CoreSplits(w, ' ', KeptTokens(ts[1..]));
        assert Harmless(Core(w));
      }
    }
  }

  lemma NewlineMild()
    ensures Mild("\n")
  {
    assert Spaced("\n") == "\n" && "\n"[1..] == "";
  }

  lemma {:induction false} IndentMild(n: nat, s: string)
    requires Mild(s)
    ensures Mild(Blanks(n) + s)
  {
    if n == 0 {
      assert Blanks(n) + s == s;
    } else {
      IndentMild(n - 1, s);
      var rest := Blanks(n - 1) + s;
      assert Blanks(n) + s == [' '] + rest;
      assert Spaced([' '] + rest)[0] == ' ' && Spaced([' '] + rest)[1..] == Spaced(rest);
    }
  }

  // ---- Accepted lines ----

  function TableLine(t: Table): TextLine {
    Statement(0, [Word("table"), Word(t.family), Word(t.name), Word("{")])
  }

  /** A comment, the opening of an owned table, or a line of harmless words. */
  predicate FineLine(l: TextLine) {
    match l
    case Remark(t) => PieceOk(Comment(t))
    case Statement(_, ts) => MildTokens(ts) || exists t :: t in OWNED && l == TableLine(t)
  }

  predicate FineLines(ls: seq<TextLine>) {
    forall i :: 0 <= i < |ls| ==> FineLine(ls[i])
  }

  function TableWords(t: Table): seq<string> {
    ["table", t.family, t.name, "{"]
  }

  lemma TableWordsOk(t: Table)
    requires t in OWNED
    ensures LineOk(TableWords(t)) && LinePlain(TableLine(t))
    ensures KeptLine(TableLine(t)) == Line(TableWords(t))
  {
    TableLineOk(t);
    TableWordsTame(t);
    TablePlain(t);
    hide LineOk, LinePlain, OWNED, Quiet, Owned, Ordinary, Keyword, Identifier, WordOk, Line, KeptTokens;
    var ws := TableWords(t);
    WordsKept(ws);
    assert WordTokens(ws) == TableLine(t).tokens;
    assert Blanks(0) + Line(ws) == Line(ws);
  }

  lemma TablePlain(t: Table)
    requires WordOk("table") && WordOk(t.family) && WordOk(t.name)
    ensures LinePlain(TableLine(t))
  {
    assert PlainText("{");
    hide PlainText;
  }

  function WordTokens(ws: seq<string>): seq<Token> {
    seq(|ws|, i requires 0 <= i < |ws| => Word(ws[i]))
  }

  lemma {:induction false} WordsKept(ws: seq<string>)
    requires ws != []
    ensures KeptTokens(WordTokens(ws)) == Line(ws)
  {
    if |ws| > 1 {
      WordsKept(ws[1..]);
      assert WordTokens(ws)[1..] == WordTokens(ws[1..]);
    }
  }

  lemma TableLineOk(t: Table)
    requires t in OWNED
    ensures LineOk(TableWords(t))
  {
    TableWordsTame(t);
    TableTokensOk(t);
    hide Keyword, Identifier, Owned, OWNED, Ordinary, TokenOk, CommandOk, NoFlush, WordOk;
    QuietBrace();
  }

  lemma TableWordsTame(t: Table)
    requires t in OWNED
    ensures WordOk("table") && WordOk(t.family) && WordOk(t.name)
    ensures Keyword("table") == "table" && Quiet("{")
    ensures Keyword(t.family) == t.family && Keyword(t.name) == t.name && Identifier(t.name) == t.name
    ensures Ordinary(t.family) && Ordinary(t.name) && Owned(t.family, t.name)
  {
    hide Keyword, Identifier, Owned, WordOk, Tame, OWNED, Ordinary, Quiet;
    TameOpening();
    TameTable(t);
    OrdinaryTable(t);
    OwnedTable(t);
    TameWord("table");
    TameWord(t.family);
    TameWord(t.name);
    QuietBrace();
  }

  lemma TameOpening()
    ensures Tame("table")
  {
  }

  lemma TableTokensOk(t: Table)
    requires Keyword("table") == "table" && Quiet("{")
    requires Keyword(t.family) == t.family && Keyword(t.name) == t.name && Identifier(t.name) == t.name
    requires Ordinary(t.family) && Ordinary(t.name) && Owned(t.family, t.name)
    ensures var ws := TableWords(t);
      CommandOk(ws) && (forall i :: 0 <= i < |ws| ==> TokenOk(ws, i)) && NoFlush(ws) && Keyword(ws[|ws| - 1]) != "flush"
  {
    TableIsNoCommand();
    hide Keyword, Identifier, Owned, DIRECTIVES, WordOk, MANAGEMENT, MUTATIONS, OBJECTS, PLURALS;
    var ws := TableWords(t);
    assert TokenOk(ws, 0) && TokenOk(ws, 1) && TokenOk(ws, 2) && TokenOk(ws, 3);
  }

  lemma TableIsNoCommand()
    ensures "table" !in MANAGEMENT && "table" !in MUTATIONS && "table" !in DIRECTIVES
  {
  }

  /** A fine line in front changes nothing about the verdict. */
  lemma FineLineInFront(l: TextLine, rest: string)
    requires FineLine(l)
    ensures AcceptsText(LineText(l) + rest) <==> AcceptsText(rest)
  {
    hide CleanOk, MildTokens, LineOk;
    if l.Statement? && !MildTokens(l.tokens) {
      var t :| t in OWNED && l == TableLine(t);
      TableWordsOk(t);
    } else if l.Statement? {
      MildLine(l.indent, l.tokens);
    } else {
      NewlineMild();
    }
    LineKept(l);
    StripsInFront(LinePieces(l), rest);
    if Stripped(rest).Some? {
      if l.Statement? && !MildTokens(l.tokens) {
        var t :| t in OWNED && l == TableLine(t);
        CleanInFront(TableWords(t), Stripped(rest).value);
      } else {
        MildInFront(KeptLine(l), Stripped(rest).value);
      }
    }
  }

  lemma MildLine(n: nat, ts: seq<Token>)
    requires MildTokens(ts)
    ensures LinePlain(Statement(n, ts))
    ensures Mild(KeptLine(Statement(n, ts)))
    ensures KeptLine(Statement(n, ts)) != "" && KeptLine(Statement(n, ts))[|KeptLine(Statement(n, ts))| - 1] == '\n'
  {
    MildTokensMild(ts);
    IndentMild(n, KeptTokens(ts));
  }

  /** A script of fine lines is accepted, save that it must not be blank. */
  lemma {:induction false} FineLinesAreAccepted(ls: seq<TextLine>)
    requires FineLines(ls)
    ensures AcceptsText(Text(ls))
  {
    if ls == [] {
      NothingIsAccepted();
    } else {
      FineLinesAreAccepted(ls[1..]);
      FineLineInFront(ls[0], Text(ls[1..]));
    }
  }
}
