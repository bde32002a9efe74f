/** Cutting the text of a script into lines and words again: exactly the lines it was written from. */
module ScriptLexer {
  import opened Wrappers
  import opened ScriptGuard
  import opened ScriptLines

  // ---- The lexer ----

  /** Where the first character of the set stands, or the length. */
  function Find(s: string, stops: set<char>): (k: nat)
    ensures k <= |s| && (k < |s| ==> s[k] in stops) && forall i :: 0 <= i < k ==> s[i] !in stops
  {
    if s == "" || s[0] in stops then 0 else 1 + Find(s[1..], stops)
  }

  function Indentation(s: string): (n: nat)
    ensures n <= |s| && (forall i :: 0 <= i < n ==> s[i] == ' ') && (n < |s| ==> s[n] != ' ')
  {
    if s != "" && s[0] == ' ' then 1 + Indentation(s[1..]) else 0
  }

  const ENDS: set<char> := {' ', '\n'}

  /** A word up to a blank or the end of the line, or a quoted text and what clings to it. */
  function LexToken(s: string): Option<(Token, string)>
    ensures LexToken(s).Some? ==> |LexToken(s).value.1| <= |s|
  {
    if s != "" && s[0] == '"' then
      var k := Find(s[1..], {'"'});
      if 1 + k >= |s| then None
      else
        var after := s[k + 2..];
        var e := Find(after, ENDS);
        Some((Str(s[1..k + 1], after[..e]), after[e..]))
    else
      var e := Find(s, ENDS);
      Some((Word(s[..e]), s[e..]))
  }

  /** The words of a line, each but the last followed by one blank. */
  function LexTokens(s: string): Option<(seq<Token>, string)>
    ensures LexTokens(s).Some? ==> |LexTokens(s).value.1| < |s|
    decreases |s|
  {
    match LexToken(s)
    case None => None
    case Some((t, rest)) =>
      if rest == "" then None
      else if rest[0] == '\n' then Some(([t], rest[1..]))
      else
        match LexTokens(rest[1..])
        case None => None
        case Some((ts, after)) => Some(([t] + ts, after))
  }

  function LexLine(s: string): Option<(TextLine, string)>
    requires s != ""
    ensures LexLine(s).Some? ==> |LexLine(s).value.1| < |s|
  {
    if s[0] == '#' then
      var k := Find(s[1..], {'\n'});
      if k == |s| - 1 then None else Some((Remark(s[1..k + 1]), s[k + 2..]))
    else
      var n := Indentation(s);
      if n < |s| && s[n] == '\n' then Some((Statement(n, []), s[n + 1..]))
      else
        match LexTokens(s[n..])
        case None => None
        case Some((ts, after)) => Some((Statement(n, ts), after))
  }

  function Lex(s: string): Option<seq<TextLine>>
    decreases |s|
  {
    if s == "" then Some([])
    else
      match LexLine(s)
      case None => None
      case Some((l, rest)) =>
        match Lex(rest)
        case None => None
        case Some(ls) => Some([l] + ls)
  }

  // ---- Lines as text ----

  function TokenText(t: Token): string {
    match t
    case Word(x) => x
    case Str(x, after) => "\"" + x + "\"" + after
  }

  function TokensText(ts: seq<Token>): string {
    if ts == [] then "\n"
    else if |ts| == 1 then TokenText(ts[0]) + "\n"
    else TokenText(ts[0]) + " " + TokensText(ts[1..])
  }

  lemma {:induction false} ScriptAppend(ps: seq<Piece>, qs: seq<Piece>)
    ensures Script(ps + qs) == Script(ps) + Script(qs)
  {
    if ps == [] {
      assert ps + qs == qs;
    } else {
      assert (ps + qs)[0] == ps[0] && (ps + qs)[1..] == ps[1..] + qs;
      ScriptAppend(ps[1..], qs);
      Regroup(Rendered(ps[0]), Script(ps[1..]), Script(qs));
    }
  }

  lemma OnePiece(p: Piece)
    ensures Script([p]) == Rendered(p)
  {
    assert [p][1..] == [] && Rendered(p) + "" == Rendered(p);
  }

  lemma TokenIsText(t: Token)
    ensures Script(TokenPieces(t)) == TokenText(t)
  {
    match t
    case Word(x) => OnePiece(Plain(x));
    case Str(x, after) =>
      OnePiece(Quoted(x));
      OnePiece(Plain(after));
      ScriptAppend([Quoted(x)], [Plain(after)]);
      assert [Quoted(x)] + [Plain(after)] == [Quoted(x), Plain(after)];
  }

  lemma {:induction false} TokensAreText(ts: seq<Token>)
    ensures Script(TokensPieces(ts)) == TokensText(ts)
  {
    OnePiece(Plain("\n"));
    OnePiece(Plain(" "));
    if ts != [] {
      TokenIsText(ts[0]);
      hide TokenPieces, TokenText;
      if |ts| == 1 {
        ScriptAppend(TokenPieces(ts[0]), [Plain("\n")]);
        assert TokensPieces(ts) == TokenPieces(ts[0]) + [Plain("\n")];
      } else {
        TokensAreText(ts[1..]);
        ScriptAppend(TokenPieces(ts[0]), [Plain(" ")]);
        ScriptAppend(TokenPieces(ts[0]) + [Plain(" ")], TokensPieces(ts[1..]));
      }
    }
  }

  lemma LineIsText(l: TextLine)
    ensures LineText(l) == match l case Remark(t) => "#" + t + "\n" case Statement(n, ts) => Blanks(n) + TokensText(ts)
  {
    match l
    case Remark(t) => OnePiece(Comment(t));
    case Statement(n, ts) =>
      OnePiece(Plain(Blanks(n)));
      TokensAreText(ts);
      ScriptAppend([Plain(Blanks(n))], TokensPieces(ts));
  }

  // ---- Reading back ----

  /** A word without blanks that does not look like a quotation or a comment, or a quotation without quotes inside. */
  predicate Distinct(t: Token) {
    match t
    case Word(x) => x != "" && x[0] != '"' && x[0] != '#' && forall i :: 0 <= i < |x| ==> x[i] !in ENDS
    case Str(x, after) =>
      && (forall i :: 0 <= i < |x| ==> x[i] != '"')
      && (forall i :: 0 <= i < |after| ==> after[i] !in ENDS)
  }

  predicate AllDistinct(ts: seq<Token>) {
    forall i :: 0 <= i < |ts| ==> Distinct(ts[i])
  }

  predicate Legible(l: TextLine) {
    match l
    case Remark(t) => forall i :: 0 <= i < |t| ==> t[i] != '\n'
    case Statement(n, ts) => AllDistinct(ts)
  }

  lemma {:induction false} FindsAt(a: string, c: char, rest: string, stops: set<char>)
    requires c in stops && forall i :: 0 <= i < |a| ==> a[i] !in stops
    ensures Find(a + [c] + rest, stops) == |a|
  {
    var s := a + [c] + rest;
    assert s[|a|] == c;
    assert forall i :: 0 <= i < |a| ==> s[i] == a[i];
  }

  lemma WordLexed(x: string, c: char, rest: string)
    requires Distinct(Word(x)) && c in ENDS
    ensures LexToken(x + [c] + rest) == Some((Word(x), [c] + rest))
  {
    var s := x + [c] + rest;
    FindsAt(x, c, rest, ENDS);
    hide Find;
    assert s[0] == x[0] && s[..|x|] == x && s[|x|..] == [c] + rest;
  }

  lemma QuotationEnds(x: string, tail: string)
    requires forall i :: 0 <= i < |x| ==> x[i] != '"'
    ensures var s := "\"" + x + "\"" + tail;
      Find(s[1..], {'"'}) == |x| && s[1..|x| + 1] == x && s[|x| + 2..] == tail && |x| + 1 < |s| && s[0] == '"'
  {
    var s := "\"" + x + "\"" + tail;
    assert s[1..] == x + ['"'] + tail;
    FindsAt(x, '"', tail, {'"'});
    hide Find;
  }

  lemma QuotationLexed(x: string, after: string, c: char, rest: string)
    requires Distinct(Str(x, after)) && c in ENDS
    ensures LexToken("\"" + x + "\"" + after + [c] + rest) == Some((Str(x, after), [c] + rest))
  {
    var tail := after + [c] + rest;
    assert "\"" + x + "\"" + after + [c] + rest == "\"" + x + "\"" + tail;
    QuotationEnds(x, tail);
    FindsAt(after, c, rest, ENDS);
    assert tail[..|after|] == after && tail[|after|..] == [c] + rest;
    hide Find, ENDS, Distinct;
  }

  lemma TokenLexed(t: Token, c: char, rest: string)
    requires Distinct(t) && c in ENDS
    ensures LexToken(TokenText(t) + [c] + rest) == Some((t, [c] + rest))
  {
    hide LexToken, Distinct;
    match t
    case Word(x) => WordLexed(x, c, rest);
    case Str(x, after) => QuotationLexed(x, after, c, rest);
  }

  lemma {:induction false} TokensLexed(ts: seq<Token>, rest: string)
    requires ts != [] && AllDistinct(ts)
    ensures LexTokens(TokensText(ts) + rest) == Some((ts, rest))
  {
    hide Distinct, TokenText, LexToken;
    assert Distinct(ts[0]);
    if |ts| == 1 {
      assert TokensText(ts) + rest == TokenText(ts[0]) + ['\n'] + rest;
      TokenLexed(ts[0], '\n', rest);
      assert (['\n'] + rest)[1..] == rest && ts == [ts[0]];
    } else {
      var tail := TokensText(ts[1..]) + rest;
      TokensLexed(ts[1..], rest);
      assert TokensText(ts) + rest == TokenText(ts[0]) + [' '] + tail;
      TokenLexed(ts[0], ' ', tail);
      assert ([' '] + tail)[1..] == tail;
      assert ts == [ts[0]] + ts[1..];
    }
  }

  lemma TokensStart(ts: seq<Token>, rest: string)
    requires AllDistinct(ts)
    ensures var s := TokensText(ts) + rest; s != "" && s[0] != ' ' && s[0] != '#' && (s[0] == '\n' <==> ts == [])
  {
    if ts != [] {
      assert Distinct(ts[0]);
      assert TokenText(ts[0]) != "" && (TokensText(ts) + rest)[0] == TokenText(ts[0])[0];
    }
  }

  lemma {:induction false} IndentationIs(n: nat, s: string)
    requires s != "" && s[0] != ' '
    ensures Indentation(Blanks(n) + s) == n
  {
    var all := Blanks(n) + s;
    assert all[n] == s[0];
    assert forall i :: 0 <= i < n ==> all[i] == ' ';
  }

  lemma RemarkLexed(t: string, rest: string)
    requires Legible(Remark(t))
    ensures var s := "#" + t + "\n" + rest; LexLine(s) == Some((Remark(t), rest))
  {
    var s := "#" + t + "\n" + rest;
    assert s[1..] == t + ['\n'] + rest;
    FindsAt(t, '\n', rest, {'\n'});
    hide Find;
    assert s[1..|t| + 1] == t && s[|t| + 2..] == rest;
  }

  lemma LineLexed(l: TextLine, rest: string)
    requires Legible(l)
    ensures LineText(l) + rest != "" && LexLine(LineText(l) + rest) == Some((l, rest))
  {
    LineIsText(l);
    match l
    case Remark(t) => RemarkLexed(t, rest);
    case Statement(n, ts) => StatementLexed(n, ts, rest);
  }

  lemma StatementLexed(n: nat, ts: seq<Token>, rest: string)
    requires AllDistinct(ts)
    ensures var s := Blanks(n) + TokensText(ts) + rest; s != "" && LexLine(s) == Some((Statement(n, ts), rest))
  {
    var body := TokensText(ts) + rest;
    var s := Blanks(n) + TokensText(ts) + rest;
    TokensStart(ts, rest);
    Regroup(Blanks(n), TokensText(ts), rest);
    IndentationIs(n, body);
    assert s[n..] == body && s[n] == body[0];
    assert s[0] == if n > 0 then ' ' else body[0];
    hide LexTokens, Indentation;
    if ts == [] {
      assert body == "\n" + rest && s[n + 1..] == rest;
    } else {
      TokensLexed(ts, rest);
    }
  }

  /** A script of legible lines is cut into exactly those lines. */
  lemma {:induction false} LexedAgain(ls: seq<TextLine>)
    requires forall i :: 0 <= i < |ls| ==> Legible(ls[i])
    ensures Lex(Text(ls)) == Some(ls)
  {
    hide Legible, LexLine, LineText;
    if ls != [] {
      assert Legible(ls[0]);
      LexedAgain(ls[1..]);
      LineLexed(ls[0], Text(ls[1..]));
      assert ls == [ls[0]] + ls[1..];
    }
  }

  lemma FineIsLegible(l: TextLine)
    requires FineLine(l)
    ensures Legible(l)
  {
    if l.Statement? {
      if MildTokens(l.tokens) {
        forall i | 0 <= i < |l.tokens| ensures Distinct(l.tokens[i]) {
          MildIsDistinct(l.tokens[i]);
        }
      } else {
        var t :| t in OWNED && l == TableLine(t);
        TableIsDistinct(t);
      }
    }
  }

  lemma MildIsDistinct(t: Token)
    requires MildToken(t)
    ensures Distinct(t)
  {
    hide Harmless;
    var w := KeptToken(t);
    var core := Core(w);
    assert forall i :: 0 <= i < |core| ==> core[i] == w[i];
    assert forall i :: 0 <= i < |w| ==> w[i] !in ENDS;
    match t
    case Word(_) =>
    case Str(_, after) => assert forall i :: 0 <= i < |after| ==> after[i] == w[3 + i];
  }

  lemma TableIsDistinct(t: Table)
    requires t in OWNED
    ensures AllDistinct(TableLine(t).tokens)
  {
    TameTable(t);
    TameOpening();
    hide OWNED;
  }
}
