/**
 The ownership validator that stands between every script and nft: what it strips, how it splits, and
 what it refuses. Characters are bytes; keywords are ASCII.
 */
module ScriptGuard {
  import opened Wrappers

  datatype Table = Table(family: string, name: string)

  const OWNED: seq<Table> :=
    [Table("inet", "nftfw_filter"), Table("ip", "nftfw_nat"), Table("ip6", "nftfw_filter6")]

  // ---- Stripping ----

  function Prepended(a: string, r: Option<string>): Option<string> {
    if r.None? then None else Some(a + r.value)
  }

  predicate Continues(s: string) {
    |s| > 1 && s[0] == '\\' && (s[1] == '\n' || (|s| > 2 && s[1] == '\r' && s[2] == '\n'))
  }

  function AfterComment(s: string): (r: string)
    ensures |r| <= |s|
  {
    if s == "" || s[0] == '\n' then s else AfterComment(s[1..])
  }

  /** Outside a quoted string: comments vanish, a quoted string leaves only its quotes and a placeholder. */
  function Stripped(s: string): Option<string>
    decreases |s|
  {
    if s == "" then Some("")
    else if Continues(s) then None
    else if s[0] == '"' then Prepended("\"_", StrippedQuoted(s[1..]))
    else if s[0] == '#' then Stripped(AfterComment(s[1..]))
    else Prepended([s[0]], Stripped(s[1..]))
  }

  /** Inside one: only the closing quote matters, and a newline or the end is an error. */
  function StrippedQuoted(s: string): Option<string>
    decreases |s|
  {
    if s == "" || s[0] == '\n' then None
    else if s[0] == '"' then Prepended("\"", Stripped(s[1..]))
    else StrippedQuoted(s[1..])
  }

  method Strip(script: string) returns (r: Option<string>)
    ensures r == Stripped(script)
  {
    var out, quoted, i := "", false, 0;
    assert script[0..] == script;
    PrependNothing(Stripped(script));
    while i < |script|
      invariant i <= |script|
      invariant Stripped(script) == Prepended(out, if quoted then StrippedQuoted(script[i..]) else Stripped(script[i..]))
      decreases |script| - i
    {
      var c := script[i];
      ghost var rest := script[i + 1..];
      assert script[i..][1..] == rest;
      if quoted {
        if c == '\n' {
          return None;
        }
        if c == '"' {
          PrependTwice(out, "\"", Stripped(rest));
          out, quoted := out + "\"", false;
        }
        i := i + 1;
      } else if Continues(script[i..]) {
        return None;
      } else if c == '"' {
        PrependTwice(out, "\"_", StrippedQuoted(rest));
        out, quoted, i := out + "\"_", true, i + 1;
      } else if c == '#' {
        i := i + 1;
        while i < |script| && script[i] != '\n'
          invariant i <= |script|
          invariant AfterComment(rest) == AfterComment(script[i..])
        {
          assert script[i..][1..] == script[i + 1..];
          i := i + 1;
        }
      } else {
        PrependTwice(out, [c], Stripped(rest));
        out, i := out + [c], i + 1;
      }
    }
    assert script[i..] == "" && out + "" == out;
    r := if quoted then None else Some(out);
  }

  lemma PrependTwice(a: string, b: string, r: Option<string>)
    ensures Prepended(a, Prepended(b, r)) == Prepended(a + b, r)
  {
    if r.Some? {
      assert a + (b + r.value) == (a + b) + r.value;
    }
  }

  // ---- What stripping forgets ----

  /** A script piece by piece. */
  datatype Piece = Plain(text: string) | Quoted(text: string) | Comment(text: string)

  predicate PlainText(s: string) {
    forall i :: 0 <= i < |s| ==> s[i] != '"' && s[i] != '#' && s[i] != '\\'
  }

  predicate PieceOk(p: Piece) {
    match p
    case Plain(t) => PlainText(t)
    case Quoted(t) => forall i :: 0 <= i < |t| ==> t[i] != '"' && t[i] != '\n'
    case Comment(t) => forall i :: 0 <= i < |t| ==> t[i] != '\n'
  }

  function Rendered(p: Piece): string {
    match p
    case Plain(t) => t
    case Quoted(t) => "\"" + t + "\""
    case Comment(t) => "#" + t + "\n"
  }

  function Script(ps: seq<Piece>): string {
    if ps == [] then "" else Rendered(ps[0]) + Script(ps[1..])
  }

  /** What of a piece survives stripping: nothing of a quoted or commented text. */
  function Kept(p: Piece): string {
    match p
    case Plain(t) => t
    case Quoted(_) => "\"_\""
    case Comment(_) => "\n"
  }

  function AllKept(ps: seq<Piece>): string {
    if ps == [] then "" else Kept(ps[0]) + AllKept(ps[1..])
  }

  lemma {:induction false} PlainPasses(t: string, s: string)
    requires PlainText(t)
    ensures Stripped(t + s) == Prepended(t, Stripped(s))
  {
    if t == "" {
      assert t + s == s;
      PrependNothing(Stripped(s));
    } else {
      assert (t + s)[0] == t[0] && (t + s)[1..] == t[1..] + s;
      PlainPasses(t[1..], s);
      PrependTwice([t[0]], t[1..], Stripped(s));
      assert [t[0]] + t[1..] == t;
    }
  }

  lemma PrependNothing(r: Option<string>)
    ensures Prepended("", r) == r
  {
    if r.Some? {
      assert "" + r.value == r.value;
    }
  }

  lemma {:induction false} QuotedVanishes(t: string, s: string)
    requires PieceOk(Quoted(t))
    ensures StrippedQuoted(t + "\"" + s) == Prepended("\"", Stripped(s))
  {
    if t == "" {
      assert t + "\"" + s == "\"" + s && ("\"" + s)[1..] == s;
    } else {
      assert (t + "\"" + s)[0] == t[0] && (t + "\"" + s)[1..] == t[1..] + "\"" + s;
      QuotedVanishes(t[1..], s);
    }
  }

  lemma {:induction false} CommentVanishes(t: string, s: string)
    requires PieceOk(Comment(t))
    ensures AfterComment(t + "\n" + s) == "\n" + s
  {
    if t == "" {
      assert t + "\n" + s == "\n" + s;
    } else {
      assert (t + "\n" + s)[0] == t[0] && (t + "\n" + s)[1..] == t[1..] + "\n" + s;
      CommentVanishes(t[1..], s);
    }
  }

  lemma PieceStrips(p: Piece, s: string)
    requires PieceOk(p)
    ensures Stripped(Rendered(p) + s) == Prepended(Kept(p), Stripped(s))
  {
    match p
    case Plain(t) => PlainPasses(t, s);
    case Quoted(t) =>
      var all := "\"" + t + "\"" + s;
      assert all[1..] == t + "\"" + s && !Continues(all);
      QuotedVanishes(t, s);
      PrependTwice("\"_", "\"", Stripped(s));
      assert "\"_" + "\"" == "\"_\"";
    case Comment(t) =>
      var all := "#" + t + "\n" + s;
      assert all[1..] == t + "\n" + s && !Continues(all);
      CommentVanishes(t, s);
      PlainPasses("\n", s);
  }

  /** Stripping keeps exactly the plain pieces: whatever is quoted or commented cannot form a statement. */
  lemma {:induction false} StripKeepsOnlyPlain(ps: seq<Piece>)
    requires forall i :: 0 <= i < |ps| ==> PieceOk(ps[i])
    ensures Stripped(Script(ps)) == Some(AllKept(ps))
  {
    if ps != [] {
      StripKeepsOnlyPlain(ps[1..]);
      PieceStrips(ps[0], Script(ps[1..]));
    }
  }

  /** A piece as it may stand in any script: a lone backslash is plain. */
  predicate PieceStands(p: Piece) {
    match p
    case Plain(t) => forall i :: 0 <= i < |t| ==> t[i] != '"' && t[i] != '#'
    case _ => PieceOk(p)
  }

  predicate AllStand(ps: seq<Piece>) {
    forall i :: 0 <= i < |ps| ==> PieceStands(ps[i])
  }

  lemma {:induction false} QuotedSplits(s: string) returns (t: string, rest: string)
    requires StrippedQuoted(s).Some?
    ensures s == t + "\"" + rest && PieceOk(Quoted(t)) && StrippedQuoted(s) == Prepended("\"", Stripped(rest))
  {
    if s[0] == '"' {
      t, rest := "", s[1..];
      assert s == "" + "\"" + rest;
    } else {
      var u;
      u, rest := QuotedSplits(s[1..]);
      t := [s[0]] + u;
      assert s == [s[0]] + s[1..];
    }
  }

  lemma {:induction false} CommentSplits(s: string) returns (t: string)
    ensures s == t + AfterComment(s) && PieceOk(Comment(t))
    ensures AfterComment(s) == "" || AfterComment(s)[0] == '\n'
  {
    if s == "" || s[0] == '\n' {
      t := "";
      assert s == "" + s;
    } else {
      var u := CommentSplits(s[1..]);
      t := [s[0]] + u;
      assert s == [s[0]] + s[1..];
    }
  }

  /** A comment that ends the script without a newline. */
  predicate OpenComment(s: string) {
    s == "" || (s[0] == '#' && forall i :: 0 <= i < |s| ==> s[i] != '\n')
  }

  lemma PieceInFront(p: Piece, s: string, rest: string, qs: seq<Piece>, open: string)
    requires s == Rendered(p) + rest && rest == Script(qs) + open && PieceStands(p) && AllStand(qs)
    requires Stripped(s) == Prepended(Kept(p), Stripped(rest)) && Stripped(rest) == Some(AllKept(qs))
    ensures s == Script([p] + qs) + open && AllStand([p] + qs) && Stripped(s) == Some(AllKept([p] + qs))
  {
    assert ([p] + qs)[0] == p && ([p] + qs)[1..] == qs;
    Regroup(Rendered(p), Script(qs), open);
    hide Stripped, Rendered, Kept, PieceStands;
    assert Script([p] + qs) == Rendered(p) + Script(qs) && AllKept([p] + qs) == Kept(p) + AllKept(qs);
  }

  lemma OpenCommentStrips(s: string, t: string)
    requires s != "" && s[0] == '#' && s[1..] == t && AfterComment(t) == ""
    ensures Stripped(s) == Some("")
  {
  }

  lemma QuoteStart(s: string)
    requires s != "" && s[0] == '"' && Stripped(s).Some?
    ensures StrippedQuoted(s[1..]).Some?
  {
  }

  lemma PlainStart(s: string)
    requires s != "" && s[0] != '"' && s[0] != '#' && Stripped(s).Some?
    ensures Stripped(s[1..]).Some? && Stripped(s) == Prepended([s[0]], Stripped(s[1..]))
  {
  }

  /** p is the first piece of s, and rest what follows it. */
  predicate Leads(p: Piece, s: string, rest: string) {
    s == Rendered(p) + rest && PieceStands(p) && |rest| < |s| && Stripped(s) == Prepended(Kept(p), Stripped(rest))
  }

  lemma QuoteLeads(s: string) returns (p: Piece, rest: string)
    requires s != "" && s[0] == '"' && Stripped(s).Some?
    ensures Leads(p, s, rest)
  {
    QuoteStart(s);
    var t;
    t, rest := QuotedSplits(s[1..]);
    p := Quoted(t);
    assert s == "\"" + (t + "\"" + rest) == Rendered(p) + rest;
    hide Stripped;
    PieceStrips(p, rest);
  }

  lemma CommentLeads(s: string) returns (p: Piece, rest: string)
    requires s != "" && s[0] == '#' && AfterComment(s[1..]) != ""
    ensures Leads(p, s, rest)
  {
    var t := CommentSplits(s[1..]);
    rest := AfterComment(s[1..])[1..];
    p := Comment(t);
    assert s == "#" + (t + ("\n" + rest)) == Rendered(p) + rest;
    hide Stripped;
    PieceStrips(p, rest);
  }

  lemma OpenStrips(s: string)
    requires s != "" && s[0] == '#' && AfterComment(s[1..]) == ""
    ensures OpenComment(s) && Stripped(s) == Some("")
  {
    var t := CommentSplits(s[1..]);
    OpenCommentStrips(s, s[1..]);
    assert t + "" == t == s[1..];
  }

  /**
   Every script that stripping lets through falls into plain text, quoted texts and comments, the last of
   which may be open, and what stripping leaves is the plain text and the places of the others.
   */
  lemma {:induction false} StripDecomposes(s: string) returns (ps: seq<Piece>, open: string)
    requires Stripped(s).Some?
    ensures s == Script(ps) + open && OpenComment(open) && AllStand(ps)
    ensures Stripped(s) == Some(AllKept(ps))
    decreases |s|
  {
    if s == "" {
      ps, open := [], "";
      return;
    }
    if s[0] == '#' && AfterComment(s[1..]) == "" {
      OpenStrips(s);
      assert "" + s == s;
      ps, open := [], s;
      return;
    }
    var p, rest;
    if s[0] == '"' {
      p, rest := QuoteLeads(s);
    } else if s[0] == '#' {
      p, rest := CommentLeads(s);
    } else {
      PlainStart(s);
      p, rest := Plain([s[0]]), s[1..];
      assert s == Rendered(p) + rest;
    }
    hide Stripped, Rendered, Kept, Script, AllKept, PieceStands;
    var qs;
    qs, open := StripDecomposes(rest);
    PieceInFront(p, s, rest, qs, open);
    ps := [p] + qs;
  }

  // ---- Splitting ----

  datatype Cut = Words | Statements

  predicate Blank(c: char) {
    c == ' ' || c == '\t' || c == '\n' || c == '\r' || c == '\U{000B}' || c == '\U{000C}'
  }

  predicate Cuts(k: Cut, c: char) {
    if k.Words? then Blank(c) else c == '\n' || c == ';'
  }

  function Flushed(word: string): seq<string> {
    if word == "" then [] else [word]
  }

  /** The non-empty stretches between separators; word is the stretch being read. */
  function Split(k: Cut, s: string, word: string): seq<string> {
    if s == "" then Flushed(word)
    else if Cuts(k, s[0]) then Flushed(word) + Split(k, s[1..], "")
    else Split(k, s[1..], word + [s[0]])
  }

  lemma {:induction false} SplitAt(k: Cut, a: string, c: char, b: string, word: string)
    requires Cuts(k, c)
    ensures Split(k, a + [c] + b, word) == Split(k, a, word) + Split(k, b, "")
    decreases |a|
  {
    var s := a + [c] + b;
    if a == "" {
      assert s[0] == c && s[1..] == b;
    } else {
      assert s[0] == a[0] && s[1..] == a[1..] + [c] + b;
      if Cuts(k, a[0]) {
        SplitAt(k, a[1..], c, b, "");
        assert Flushed(word) + (Split(k, a[1..], "") + Split(k, b, "")) == (Flushed(word) + Split(k, a[1..], "")) + Split(k, b, "");
      } else {
        SplitAt(k, a[1..], c, b, word + [a[0]]);
      }
    }
  }

  predicate Solid(k: Cut, s: string) {
    forall i :: 0 <= i < |s| ==> !Cuts(k, s[i])
  }

  lemma {:induction false} SplitSolid(k: Cut, s: string, word: string)
    requires Solid(k, s)
    ensures Split(k, s, word) == Flushed(word + s)
    decreases |s|
  {
    if s == "" {
      assert word + s == word;
    } else {
      SplitSolid(k, s[1..], word + [s[0]]);
      assert word + [s[0]] + s[1..] == word + s;
    }
  }

  /** A solid word and a separator in front give one more stretch. */
  lemma SplitWord(k: Cut, w: string, c: char, rest: string)
    requires Solid(k, w) && w != "" && Cuts(k, c)
    ensures Split(k, w + [c] + rest, "") == [w] + Split(k, rest, "")
  {
    SplitAt(k, w, c, rest, "");
    SplitSolid(k, w, "");
    assert "" + w == w;
  }

  // ---- Keywords ----

  predicate Punctuation(c: char) {
    c == '{' || c == '}' || c == ';' || c == ','
  }

  function TrimLeft(s: string): string {
    if s != "" && Punctuation(s[0]) then TrimLeft(s[1..]) else s
  }

  function TrimRight(s: string): string {
    if s != "" && Punctuation(s[|s| - 1]) then TrimRight(s[..|s| - 1]) else s
  }

  function Identifier(token: string): string {
    TrimRight(TrimLeft(token))
  }

  function Lower(s: string): (r: string)
    ensures |r| == |s| && forall i :: 0 <= i < |s| ==> r[i] == if 'A' <= s[i] <= 'Z' then s[i] - 'A' + 'a' else s[i]
  {
    seq(|s|, i requires 0 <= i < |s| => if 'A' <= s[i] <= 'Z' then s[i] - 'A' + 'a' else s[i])
  }

  function Keyword(token: string): string {
    Lower(Identifier(token))
  }

  /** A token that is its own keyword. */
  predicate Bare(w: string) {
    w != "" && forall i :: 0 <= i < |w| ==> !Punctuation(w[i]) && !('A' <= w[i] <= 'Z')
  }

  lemma BareKeyword(w: string)
    requires Bare(w)
    ensures Keyword(w) == w && Identifier(w) == w
  {
    assert Lower(w) == w;
  }

  const MANAGEMENT: set<string> := {
    "add", "create", "delete", "destroy", "flush", "get", "insert", "list", "rename", "replace", "reset",
    "import", "export", "monitor", "describe"}

  const MUTATIONS: set<string> := {"add", "create", "delete", "destroy", "flush", "insert", "rename", "replace", "reset"}

  const OBJECTS: set<string> := {
    "table", "chain", "rule", "set", "map", "element", "counter", "quota", "limit", "flowtable", "synproxy"}

  const DIRECTIVES: set<string> := {"include", "define", "redefine"}

  const PLURALS: map<string, string> := map[
    "tables" := "table", "chains" := "chain", "rules" := "rule", "sets" := "set", "maps" := "map",
    "elements" := "element", "counters" := "counter", "quotas" := "quota", "limits" := "limit",
    "flowtables" := "flowtable", "synproxies" := "synproxy"]

  function ObjectOf(token: string): string {
    if Keyword(token) in PLURALS then PLURALS[Keyword(token)] else Keyword(token)
  }

  predicate Owned(family: string, name: string) {
    exists i :: 0 <= i < |OWNED| && OWNED[i] == Table(family, name)
  }

  // ---- Acceptance ----

  /** A management command must be a mutation of a managed object, with its family and table named. */
  predicate CommandOk(parts: seq<string>)
    requires parts != []
  {
    var command := Keyword(parts[0]);
    var object_ := if |parts| > 1 then ObjectOf(parts[1]) else "";
    && (command in MANAGEMENT ==> command in MUTATIONS && |parts| >= 4 && object_ in OBJECTS)
    && (|parts| >= 4 && command in MUTATIONS && object_ in OBJECTS ==>
      Owned(Keyword(parts[2]), Identifier(parts[3])) && !(command == "rename" && object_ == "table"))
  }

  predicate TokenOk(parts: seq<string>, i: nat)
    requires i < |parts|
  {
    && Keyword(parts[i]) !in DIRECTIVES
    && (Keyword(parts[i]) == "table" ==> i + 2 < |parts| && Owned(Keyword(parts[i + 1]), Identifier(parts[i + 2])))
  }

  predicate StatementOk(statement: string) {
    var parts := Split(Words, statement, "");
    parts == [] || (CommandOk(parts) && forall i :: 0 <= i < |parts| ==> TokenOk(parts, i))
  }

  predicate NoFlush(fields: seq<string>) {
    forall i :: 0 <= i < |fields| - 1 ==> !(Keyword(fields[i]) == "flush" && Keyword(fields[i + 1]) == "ruleset")
  }

  function Spaced(s: string): (r: string)
    ensures |r| == |s| && forall i :: 0 <= i < |s| ==> r[i] == if s[i] == ';' then ' ' else s[i]
  {
    seq(|s|, i requires 0 <= i < |s| => if s[i] == ';' then ' ' else s[i])
  }

  predicate CleanOk(clean: string) {
    && NoFlush(Split(Words, Spaced(clean), ""))
    && forall i :: 0 <= i < |Split(Statements, clean, "")| ==> StatementOk(Split(Statements, clean, "")[i])
  }

  predicate AllBlank(s: string) {
    forall i :: 0 <= i < |s| ==> Blank(s[i])
  }

  predicate Accepts(script: string) {
    !AllBlank(script) && Stripped(script).Some? && CleanOk(Stripped(script).value)
  }

  method Validate(script: string) returns (ok: bool)
    ensures ok <==> Accepts(script)
  {
    if AllBlank(script) {
      return false;
    }
    var clean := Strip(script);
    if clean.None? {
      return false;
    }
    var fields := Split(Words, Spaced(clean.value), "");
    for i := 0 to |fields|
      invariant forall k :: 0 <= k < i && k < |fields| - 1 ==> !(Keyword(fields[k]) == "flush" && Keyword(fields[k + 1]) == "ruleset")
    {
      if i + 1 < |fields| && Keyword(fields[i]) == "flush" && Keyword(fields[i + 1]) == "ruleset" {
        return false;
      }
    }
    var statements := Split(Statements, clean.value, "");
    for i := 0 to |statements|
      invariant forall k :: 0 <= k < i ==> StatementOk(statements[k])
    {
      var good := CheckStatement(statements[i]);
      if !good {
        return false;
      }
    }
    ok := true;
  }

  method CheckStatement(statement: string) returns (ok: bool)
    ensures ok <==> StatementOk(statement)
  {
    var parts := Split(Words, statement, "");
    if parts == [] {
      return true;
    }
    for i := 0 to |parts|
      invariant forall k :: 0 <= k < i ==> TokenOk(parts, k)
    {
      if !TokenOk(parts, i) {
        return false;
      }
    }
    ok := CommandOk(parts);
  }

  /** Whatever is quoted or commented, the verdict is that of the plain pieces alone. */
  lemma VerdictIgnoresText(ps: seq<Piece>, qs: seq<Piece>)
    requires forall i :: 0 <= i < |ps| ==> PieceOk(ps[i])
    requires forall i :: 0 <= i < |qs| ==> PieceOk(qs[i])
    requires AllKept(ps) == AllKept(qs)
    requires !AllBlank(Script(ps)) && !AllBlank(Script(qs))
    ensures Accepts(Script(ps)) <==> Accepts(Script(qs))
  {
    StripKeepsOnlyPlain(ps);
    StripKeepsOnlyPlain(qs);
  }

  // ---- Lines in front ----

  /** A line of words that is harmless on its own, and cannot pair with what follows. */
  predicate LineOk(ws: seq<string>) {
    && ws != [] && CommandOk(ws)
    && (forall i :: 0 <= i < |ws| ==> WordOk(ws[i]) && TokenOk(ws, i))
    && NoFlush(ws) && Keyword(ws[|ws| - 1]) != "flush"
  }

  predicate WordOk(w: string) {
    w != "" && PlainText(w) && forall i :: 0 <= i < |w| ==> !Blank(w[i]) && w[i] != ';'
  }

  function Line(ws: seq<string>): string
    requires ws != []
  {
    if |ws| == 1 then ws[0] + "\n" else ws[0] + " " + Line(ws[1..])
  }

  lemma {:induction false} LineIsPlain(ws: seq<string>)
    requires ws != [] && forall i :: 0 <= i < |ws| ==> WordOk(ws[i])
    ensures PlainText(Line(ws))
    ensures |Line(ws)| > 0 && Line(ws)[|Line(ws)| - 1] == '\n'
    ensures forall i :: 0 <= i < |Line(ws)| - 1 ==> !Cuts(Statements, Line(ws)[i])
    ensures Spaced(Line(ws)) == Line(ws)
  {
    if |ws| > 1 {
      LineIsPlain(ws[1..]);
    }
  }

  lemma {:induction false} LineWords(ws: seq<string>, rest: string)
    requires ws != [] && forall i :: 0 <= i < |ws| ==> WordOk(ws[i])
    ensures Split(Words, Line(ws) + rest, "") == ws + Split(Words, rest, "")
  {
    var w := ws[0];
    assert Solid(Words, w);
    if |ws| == 1 {
      assert Line(ws) + rest == w + ['\n'] + rest;
      SplitWord(Words, w, '\n', rest);
      assert ws == [w];
    } else {
      assert Line(ws) + rest == w + [' '] + (Line(ws[1..]) + rest);
      SplitWord(Words, w, ' ', Line(ws[1..]) + rest);
      LineWords(ws[1..], rest);
      assert ws == [w] + ws[1..];
      assert [w] + (ws[1..] + Split(Words, rest, "")) == ([w] + ws[1..]) + Split(Words, rest, "");
    }
  }

  lemma LineStatement(ws: seq<string>, rest: string)
    requires LineOk(ws)
    ensures Split(Statements, Line(ws) + rest, "") == [Line(ws)[..|Line(ws)| - 1]] + Split(Statements, rest, "")
    ensures Split(Words, Line(ws)[..|Line(ws)| - 1], "") == ws
  {
    LineIsPlain(ws);
    var line := Line(ws);
    var body := line[..|line| - 1];
    assert line + rest == body + ['\n'] + rest && line == body + ['\n'] + "";
    LineBody(ws);
    SplitWord(Statements, body, '\n', rest);
    LineWords(ws, "");
    assert Line(ws) + "" == Line(ws);
    SplitAt(Words, body, '\n', "", "");
    assert ws + [] == ws;
  }

  lemma LineBody(ws: seq<string>)
    requires ws != [] && WordOk(ws[0])
    ensures |Line(ws)| > 1
  {
  }

  lemma SpacedAppend(a: string, b: string)
    ensures Spaced(a + b) == Spaced(a) + Spaced(b)
  {
  }

  /** Accepted but for the check that there is something in it. */
  predicate AcceptsText(script: string) {
    Stripped(script).Some? && CleanOk(Stripped(script).value)
  }

  /** A harmless line in front changes nothing about the verdict. */
  lemma LineInFront(ws: seq<string>, script: string)
    requires LineOk(ws)
    ensures AcceptsText(Line(ws) + script) <==> AcceptsText(script)
    ensures !AllBlank(Line(ws) + script)
  {
    LineIsPlain(ws);
    LineStarts(ws);
    var line := Line(ws);
    assert (line + script)[0] == line[0];
    PlainPasses(line, script);
    if Stripped(script).Some? {
      CleanInFront(ws, Stripped(script).value);
    }
  }

  lemma LineStarts(ws: seq<string>)
    requires ws != [] && WordOk(ws[0])
    ensures |Line(ws)| > 0 && !Blank(Line(ws)[0])
  {
  }

  lemma CleanInFront(ws: seq<string>, clean: string)
    requires LineOk(ws)
    ensures CleanOk(Line(ws) + clean) <==> CleanOk(clean)
  {
    var line := Line(ws);
    LineIsPlain(ws);
    LineStatement(ws, clean);
    SpacedAppend(line, clean);
    LineWords(ws, Spaced(clean));
    FlushInFront(ws, Split(Words, Spaced(clean), ""));
    assert StatementOk(line[..|line| - 1]);
    hide StatementOk, NoFlush, Split, LineOk, Line, Spaced;
    StatementInFront(line[..|line| - 1], Split(Statements, clean, ""));
  }

  lemma FlushInFront(ws: seq<string>, fields: seq<string>)
    requires ws != [] && NoFlush(ws) && Keyword(ws[|ws| - 1]) != "flush"
    ensures NoFlush(ws + fields) <==> NoFlush(fields)
  {
    hide Keyword;
    var all := ws + fields;
    assert forall i :: 0 <= i < |fields| ==> all[|ws| + i] == fields[i];
    assert forall i :: 0 <= i < |ws| ==> all[i] == ws[i];
    if NoFlush(all) {
      forall i | 0 <= i < |fields| - 1 ensures !(Keyword(fields[i]) == "flush" && Keyword(fields[i + 1]) == "ruleset") {
        assert all[|ws| + i] == fields[i] && all[|ws| + i + 1] == fields[i + 1];
        assert !(Keyword(all[|ws| + i]) == "flush" && Keyword(all[|ws| + i + 1]) == "ruleset");
      }
    }
  }

  lemma StatementInFront(first: string, rest: seq<string>)
    requires StatementOk(first)
    ensures (forall i :: 0 <= i < |[first] + rest| ==> StatementOk(([first] + rest)[i])) <==>
      (forall i :: 0 <= i < |rest| ==> StatementOk(rest[i]))
  {
    hide StatementOk;
    var all := [first] + rest;
    assert forall i :: 0 <= i < |rest| ==> all[i + 1] == rest[i];
  }

  function DestroyWords(t: Table): seq<string> {
    ["destroy", "table", t.family, t.name]
  }

  /** The script with a destroy line for each table that exists, in order. */
  function WithDestroys(script: string, ts: seq<Table>, existing: set<Table>): string {
    if ts == [] then script
    else if ts[0] in existing then Line(DestroyWords(ts[0])) + WithDestroys(script, ts[1..], existing)
    else WithDestroys(script, ts[1..], existing)
  }

  method PrependDestroy(script: string, existing: set<Table>) returns (r: string)
    ensures r == WithDestroys(script, OWNED, existing)
  {
    r := script;
    for i := |OWNED| downto 0
      invariant r == WithDestroys(script, OWNED[i..], existing)
    {
      assert OWNED[i..][0] == OWNED[i] && OWNED[i..][1..] == OWNED[i + 1..];
      if OWNED[i] in existing {
        r := Line(DestroyWords(OWNED[i])) + r;
      }
    }
    assert OWNED[0..] == OWNED;
  }

  /** Lower-case letters, digits and underscores. */
  predicate Tame(w: string) {
    w != "" && forall i :: 0 <= i < |w| ==> 'a' <= w[i] <= 'z' || '0' <= w[i] <= '9' || w[i] == '_'
  }

  lemma TameWord(w: string)
    requires Tame(w)
    ensures Keyword(w) == w && Identifier(w) == w && WordOk(w)
  {
    BareKeyword(w);
  }

  lemma TameVerbs()
    ensures Tame("destroy") && Tame("table") && Tame("flush") && Tame("set") && Tame("add") && Tame("element")
  {
  }

  lemma TameTable(t: Table)
    requires t in OWNED
    ensures Tame(t.family) && Tame(t.name)
  {
    assert Tame("inet") && Tame("ip") && Tame("ip6");
    assert Tame("nftfw_filter") && Tame("nftfw_nat") && Tame("nftfw_filter6");
    assert t == OWNED[0] || t == OWNED[1] || t == OWNED[2];
  }

  /** Neither a directive, nor a word that means anything special to the validator. */
  predicate Ordinary(w: string) {
    w !in DIRECTIVES && w != "table" && w != "flush" && w != "ruleset"
  }

  lemma OrdinaryTable(t: Table)
    requires t in OWNED
    ensures Ordinary(t.family) && Ordinary(t.name)
  {
    assert t == OWNED[0] || t == OWNED[1] || t == OWNED[2];
  }

  lemma DestroyLineOk(t: Table)
    requires t in OWNED
    ensures LineOk(DestroyWords(t))
  {
    hide Keyword, Identifier, Owned, WordOk, Tame, Ordinary, OWNED, MANAGEMENT, MUTATIONS, OBJECTS, PLURALS, DIRECTIVES, CommandOk, TokenOk, NoFlush;
    TameVerbs();
    TameTable(t);
    OrdinaryTable(t);
    OwnedTable(t);
    TameWord("destroy");
    TameWord("table");
    TameWord(t.family);
    TameWord(t.name);
    Verbs();
    var ws := DestroyWords(t);
    ObjectCommand(ws);
    DestroyTokensOk(t);
  }

  lemma DestroyTokensOk(t: Table)
    requires Keyword("destroy") == "destroy" && Keyword("table") == "table"
    requires Keyword(t.family) == t.family && Keyword(t.name) == t.name && Identifier(t.name) == t.name
    requires Ordinary(t.family) && Ordinary(t.name) && Owned(t.family, t.name)
    requires "destroy" !in DIRECTIVES && "table" !in DIRECTIVES
    ensures var ws := DestroyWords(t);
      (forall i :: 0 <= i < |ws| ==> TokenOk(ws, i)) && NoFlush(ws) && Keyword(ws[|ws| - 1]) != "flush"
  {
    hide Keyword, Identifier, Owned, DIRECTIVES;
    var ws := DestroyWords(t);
    assert TokenOk(ws, 0) && TokenOk(ws, 1) && TokenOk(ws, 2) && TokenOk(ws, 3);
  }

  lemma Verbs()
    ensures "destroy" !in DIRECTIVES && "table" !in DIRECTIVES && "table" !in PLURALS
    ensures "destroy" in MUTATIONS && "table" in OBJECTS
    ensures "flush" in MUTATIONS && "set" in OBJECTS && "set" !in PLURALS && "flush" !in DIRECTIVES && "set" !in DIRECTIVES
    ensures "add" in MUTATIONS && "element" in OBJECTS && "element" !in PLURALS && "add" !in DIRECTIVES && "element" !in DIRECTIVES
  {
  }

  lemma OwnedTable(t: Table)
    requires t in OWNED
    ensures Owned(t.family, t.name)
  {
    var i :| 0 <= i < |OWNED| && OWNED[i] == t;
  }

  /** Removing whatever owned tables exist first never changes the verdict on the script itself. */
  lemma {:induction false} DestroysAreTransparent(script: string, ts: seq<Table>, existing: set<Table>)
    requires !AllBlank(script) && forall i :: 0 <= i < |ts| ==> ts[i] in OWNED
    ensures !AllBlank(WithDestroys(script, ts, existing))
    ensures Accepts(WithDestroys(script, ts, existing)) <==> Accepts(script)
  {
    hide Stripped, CleanOk, AllBlank, LineOk, Line, OWNED;
    if ts != [] {
      DestroysAreTransparent(script, ts[1..], existing);
      if ts[0] in existing {
        DestroyLineOk(ts[0]);
        LineInFront(DestroyWords(ts[0]), WithDestroys(script, ts[1..], existing));
      }
    }
  }

  // ---- Set replacement ----

  const SETS: set<string> := {
    "blocked_v4", "blocked_v6", "trusted_v4", "trusted_v6", "wg_bootstrap_v4", "wg_bootstrap_v6", "docker_nets", "docker_nets6"}

  /** A prefix as text: digits, letters, dots, colons, and always a slash. */
  predicate PrefixText(s: string) {
    && (exists i :: 0 < i < |s| && s[i] == '/')
    && forall i :: 0 <= i < |s| ==>
      '0' <= s[i] <= '9' || 'a' <= s[i] <= 'f' || 'A' <= s[i] <= 'F' || s[i] == '.' || s[i] == ':' || s[i] == '/'
  }

  /** The elements as words, each but the last with a comma. */
  function ElementWords(values: seq<string>): seq<string> {
    if values == [] then []
    else if |values| == 1 then values
    else [values[0] + ","] + ElementWords(values[1..])
  }

  function FlushWords(name: string): seq<string> {
    ["flush", "set", "inet", "nftfw_filter", name]
  }

  function AddWords(name: string, values: seq<string>): seq<string> {
    ["add", "element", "inet", "nftfw_filter", name, "{"] + ElementWords(values) + ["}"]
  }

  function SetLines(name: string, values: seq<string>): string {
    Line(FlushWords(name)) + if values == [] then "" else Line(AddWords(name, values))
  }

  /** The script that replaces the contents of the named sets, in the order given. */
  function SetScript(names: seq<string>, sets: map<string, seq<string>>): string
    requires forall i :: 0 <= i < |names| ==> names[i] in sets
  {
    if names == [] then "" else SetLines(names[0], sets[names[0]]) + SetScript(names[1..], sets)
  }

  /** A token that holds a slash, after something else. */
  predicate Slashed(w: string) {
    exists i :: 0 < i < |w| && w[i] == '/' && !Punctuation(w[0])
  }

  lemma SlashedKeyword(w: string)
    requires WordOk(w) && Slashed(w)
    ensures '/' in Keyword(w)
    ensures Keyword(w) !in DIRECTIVES && Keyword(w) != "table" && Keyword(w) != "flush" && Keyword(w) != "ruleset"
  {
    var i :| 0 < i < |w| && w[i] == '/' && !Punctuation(w[0]);
    TrimRightKeeps(w, i);
    assert TrimLeft(w) == w;
    assert Lower(Identifier(w))[i] == '/';
    var k := Keyword(w);
    assert k[i] == '/';
    NoSlash(k, i);
  }

  lemma NoSlash(k: string, i: nat)
    requires i < |k| && k[i] == '/'
    ensures k !in DIRECTIVES && k != "table" && k != "flush" && k != "ruleset"
  {
    assert '/' !in "include" && '/' !in "define" && '/' !in "redefine";
    assert '/' !in "table" && '/' !in "flush" && '/' !in "ruleset";
    assert '/' in k;
  }

  lemma {:induction false} TrimRightKeeps(s: string, i: nat)
    requires i < |s| && !Punctuation(s[i])
    ensures i < |TrimRight(s)| && TrimRight(s)[i] == s[i]
    decreases |s|
  {
    if Punctuation(s[|s| - 1]) {
      TrimRightKeeps(s[..|s| - 1], i);
    }
  }

  /** A word that no check reacts to. */
  predicate Quiet(w: string) {
    WordOk(w) && Ordinary(Keyword(w))
  }

  lemma QuietLine(ws: seq<string>)
    requires ws != [] && CommandOk(ws) && Keyword(ws[|ws| - 1]) != "flush"
    requires WordOk(ws[0]) && Keyword(ws[0]) !in DIRECTIVES && Keyword(ws[0]) != "table" && Keyword(ws[0]) != "ruleset"
    requires forall i :: 1 <= i < |ws| ==> Quiet(ws[i])
    ensures LineOk(ws)
  {
    hide Keyword, WordOk, CommandOk, DIRECTIVES;
  }

  lemma LongIsOrdinary(w: string)
    requires |w| > 8
    ensures Ordinary(w)
  {
  }

  lemma TameV4Sets()
    ensures Tame("blocked_v4") && Tame("trusted_v4") && Tame("wg_bootstrap_v4") && Tame("docker_nets")
  {
  }

  lemma TameV6Sets()
    ensures Tame("blocked_v6") && Tame("trusted_v6") && Tame("wg_bootstrap_v6") && Tame("docker_nets6")
  {
  }

  lemma QuietSet(name: string)
    requires name in SETS
    ensures Quiet(name)
  {
    TameV4Sets();
    TameV6Sets();
    hide Tame, Keyword, Ordinary, WordOk;
    assert Tame(name) && |name| > 8;
    TameWord(name);
    LongIsOrdinary(name);
  }

  lemma QuietBrace()
    ensures Quiet("{") && Quiet("}")
  {
    assert TrimLeft("{") == "" && TrimLeft("}") == "";
    assert Keyword("{") == "" && Keyword("}") == "";
  }

  lemma QuietElement(v: string)
    requires PrefixText(v)
    ensures Quiet(v) && Quiet(v + ",")
  {
    var i :| 0 < i < |v| && v[i] == '/';
    assert (v + ",")[i] == '/' && (v + ",")[0] == v[0];
    assert Slashed(v) && Slashed(v + ",");
    assert WordOk(v) && WordOk(v + ",");
    SlashedKeyword(v);
    SlashedKeyword(v + ",");
  }

  lemma {:induction false} QuietElements(values: seq<string>)
    requires forall i :: 0 <= i < |values| ==> PrefixText(values[i])
    ensures forall i :: 0 <= i < |ElementWords(values)| ==> Quiet(ElementWords(values)[i])
  {
    hide Quiet, PrefixText;
    if values != [] {
      QuietElement(values[0]);
      QuietElements(values[1..]);
    }
  }

  /** The fixed words of the two commands. */
  lemma SetCommandWords()
    ensures Keyword("flush") == "flush" && Keyword("add") == "add" && WordOk("flush") && WordOk("add")
    ensures Keyword("set") == "set" && Keyword("element") == "element" && Quiet("set") && Quiet("element")
    ensures Owned(Keyword("inet"), Identifier("nftfw_filter")) && Quiet("inet") && Quiet("nftfw_filter")
  {
    TameVerbs();
    TameTable(OWNED[0]);
    OrdinaryTable(OWNED[0]);
    OwnedTable(OWNED[0]);
    hide Tame, Keyword, Identifier, WordOk, Owned;
    TameWord("flush");
    TameWord("set");
    TameWord("add");
    TameWord("element");
    TameWord("inet");
    TameWord("nftfw_filter");
    assert Ordinary("set") && Ordinary("element");
  }

  lemma FlushLineOk(name: string)
    requires name in SETS
    ensures LineOk(FlushWords(name))
  {
    SetCommandWords();
    Verbs();
    QuietSet(name);
    hide Keyword, Identifier, Owned, WordOk, SETS, MANAGEMENT, MUTATIONS, OBJECTS, PLURALS, DIRECTIVES, CommandOk;
    ObjectCommand(FlushWords(name));
    QuietLine(FlushWords(name));
  }

  lemma AddLineOk(name: string, values: seq<string>)
    requires name in SETS && forall i :: 0 <= i < |values| ==> PrefixText(values[i])
    ensures LineOk(AddWords(name, values))
  {
    hide Keyword, Identifier, Owned, WordOk, SETS, MANAGEMENT, MUTATIONS, OBJECTS, PLURALS, DIRECTIVES, CommandOk, ElementWords, PrefixText, Quiet;
    SetCommandWords();
    Verbs();
    QuietSet(name);
    QuietBrace();
    QuietElements(values);
    AllQuiet(name, values);
    assert AddWords(name, values)[|AddWords(name, values)| - 1] == "}";
    BraceIsNoFlush();
    ObjectCommand(AddWords(name, values));
    QuietLine(AddWords(name, values));
  }

  lemma BraceIsNoFlush()
    ensures Keyword("}") != "flush"
  {
    QuietBrace();
    hide Keyword;
    assert Quiet("}");
  }

  lemma ObjectCommand(ws: seq<string>)
    requires |ws| >= 4 && Keyword(ws[0]) in MUTATIONS && Keyword(ws[0]) != "rename"
    requires Keyword(ws[1]) in OBJECTS && Keyword(ws[1]) !in PLURALS
    requires Owned(Keyword(ws[2]), Identifier(ws[3]))
    ensures CommandOk(ws)
  {
    hide Keyword, Identifier, Owned;
  }

  lemma AllQuiet(name: string, values: seq<string>)
    requires Quiet(name) && Quiet("{") && Quiet("}") && Quiet("element") && Quiet("inet") && Quiet("nftfw_filter")
    requires forall i :: 0 <= i < |ElementWords(values)| ==> Quiet(ElementWords(values)[i])
    ensures forall i :: 1 <= i < |AddWords(name, values)| ==> Quiet(AddWords(name, values)[i])
  {
    hide Quiet, ElementWords;
  }

  /** Every script that replaces owned sets with well-formed prefixes is accepted. */
  lemma {:induction false} SetScriptsAreAccepted(names: seq<string>, sets: map<string, seq<string>>)
    requires forall i :: 0 <= i < |names| ==> names[i] in sets && names[i] in SETS
    requires forall n :: n in sets ==> forall i :: 0 <= i < |sets[n]| ==> PrefixText(sets[n][i])
    ensures AcceptsText(SetScript(names, sets))
    ensures names != [] ==> Accepts(SetScript(names, sets))
  {
    if names == [] {
      NothingIsAccepted();
    } else {
      var name, values, rest := names[0], sets[names[0]], SetScript(names[1..], sets);
      SetScriptsAreAccepted(names[1..], sets);
      SetLinesInFront(name, values, rest);
      AcceptsBoth(SetScript(names, sets));
    }
  }

  lemma NothingIsAccepted()
    ensures AcceptsText("")
  {
    assert Stripped("") == Some("");
    assert Spaced("") == "" && Split(Words, "", "") == [] && Split(Statements, "", "") == [];
  }

  lemma Regroup(a: string, b: string, c: string)
    ensures (a + b) + c == a + (b + c)
  {
  }

  lemma SetLinesInFront(name: string, values: seq<string>, rest: string)
    requires name in SETS && (forall i :: 0 <= i < |values| ==> PrefixText(values[i])) && AcceptsText(rest)
    ensures AcceptsText(SetLines(name, values) + rest) && !AllBlank(SetLines(name, values) + rest)
  {
    FlushLineOk(name);
    AddLineOk(name, values);
    hide AcceptsText, LineOk, AllBlank, Line, SETS, PrefixText, FlushWords, AddWords;
    var flush, add := Line(FlushWords(name)), Line(AddWords(name, values));
    if values == [] {
      LineInFront(FlushWords(name), rest);
      assert SetLines(name, values) == flush;
    } else {
      LineInFront(AddWords(name, values), rest);
      LineInFront(FlushWords(name), add + rest);
      Regroup(flush, add, rest);
    }
  }

  lemma AcceptsBoth(s: string)
    ensures Accepts(s) <==> AcceptsText(s) && !AllBlank(s)
  {
  }
}
