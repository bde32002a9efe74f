/** The words of a compiled script, and why none of them means anything to the ownership validator. */
module ScriptWords {
  import opened ScriptGuard
  import opened ScriptLines

  // ---- Words of letters ----

  predicate Letters(w: string) {
    forall i :: 0 <= i < |w| ==> 'a' <= w[i] <= 'z'
  }

  /** Enough of a word to tell it from the special ones. */
  datatype Shape = Shape(length: nat, first: char, second: char, last: char)

  function ShapeOf(w: string): Shape
    requires |w| >= 2
  {
    Shape(|w|, w[0], w[1], w[|w| - 1])
  }

  const SPECIAL_SHAPES: set<Shape> := {
    Shape(3, 'a', 'd', 'd'), Shape(6, 'c', 'r', 'e'), Shape(6, 'd', 'e', 'e'), Shape(7, 'd', 'e', 'y'),
    Shape(5, 'f', 'l', 'h'), Shape(3, 'g', 'e', 't'), Shape(6, 'i', 'n', 't'), Shape(4, 'l', 'i', 't'),
    Shape(6, 'r', 'e', 'e'), Shape(7, 'r', 'e', 'e'), Shape(5, 'r', 'e', 't'), Shape(6, 'i', 'm', 't'),
    Shape(6, 'e', 'x', 't'), Shape(7, 'm', 'o', 'r'), Shape(8, 'd', 'e', 'e'), Shape(7, 'i', 'n', 'e'),
    Shape(8, 'r', 'e', 'e'), Shape(5, 't', 'a', 'e'), Shape(7, 'r', 'u', 't')}

  lemma SpecialManagement(k: string)
    requires k in MANAGEMENT
    ensures |k| >= 2 && ShapeOf(k) in SPECIAL_SHAPES && Letters(k)
  {
  }

  lemma SpecialDirectives(k: string)
    requires k in DIRECTIVES || k == "table" || k == "ruleset"
    ensures |k| >= 2 && ShapeOf(k) in SPECIAL_SHAPES && Letters(k)
  {
  }

  /** A word of letters that no special word resembles. */
  predicate Common(w: string) {
    |w| >= 2 && Letters(w) && ShapeOf(w) !in SPECIAL_SHAPES
  }

  predicate Special(k: string) {
    k in MANAGEMENT || k in DIRECTIVES || k == "table" || k == "ruleset"
  }

  lemma SpecialIsLetters(k: string)
    requires Special(k)
    ensures |k| >= 2 && ShapeOf(k) in SPECIAL_SHAPES && Letters(k)
  {
    hide MANAGEMENT, DIRECTIVES, SPECIAL_SHAPES, Letters;
    if k in MANAGEMENT {
      SpecialManagement(k);
    } else {
      SpecialDirectives(k);
    }
  }

  lemma CommonIsHarmless(w: string)
    requires Common(w)
    ensures Harmless(w) && MildToken(Word(w))
  {
    hide SPECIAL_SHAPES;
    assert Bare(w);
    BareKeyword(w);
    if Special(w) {
      SpecialIsLetters(w);
    }
    assert Core(w) == w;
  }

  /** The same with a semicolon behind it. */
  lemma CommonEnds(w: string)
    requires Common(w)
    ensures MildToken(Word(w + ";"))
  {
    CommonIsHarmless(w);
    hide Harmless, SPECIAL_SHAPES;
    assert Core(w + ";") == w;
  }

  /** The same with a comma behind it. */
  lemma CommonGoesOn(w: string)
    requires Common(w)
    ensures MildToken(Word(w + ","))
  {
    CommonIsHarmless(w);
    hide SPECIAL_SHAPES;
    var x := w + ",";
    assert Bare(w);
    BareKeyword(w);
    assert TrimLeft(x) == x && TrimRight(x) == TrimRight(w) by {
      assert x[..|x| - 1] == w;
    }
    assert TrimLeft(w) == w;
    assert Core(x) == x;
  }

  // ---- Words with something else in them ----

  predicate Odd(c: char) {
    !Punctuation(c) && !('a' <= c <= 'z') && !('A' <= c <= 'Z')
  }

  /** One bare word, with a character that no special word has and that trimming keeps. */
  predicate OddWord(w: string) {
    && (forall i :: 0 <= i < |w| ==> w[i] != '"' && w[i] != '#' && w[i] != '\\' && !Blank(w[i]) && w[i] != ';')
    && exists i :: 0 <= i < |w| && Odd(w[i])
  }

  lemma {:induction false} TrimLeftHolds(s: string, c: char)
    requires c in s && !Punctuation(c)
    ensures c in TrimLeft(s)
  {
    if Punctuation(s[0]) {
      assert c in s[1..];
      TrimLeftHolds(s[1..], c);
    }
  }

  lemma {:induction false} TrimRightHolds(s: string, c: char)
    requires c in s && !Punctuation(c)
    ensures c in TrimRight(s)
    decreases |s|
  {
    if Punctuation(s[|s| - 1]) {
      assert s == s[..|s| - 1] + [s[|s| - 1]];
      TrimRightHolds(s[..|s| - 1], c);
    }
  }

  lemma OddIsHarmless(w: string)
    requires exists i :: 0 <= i < |w| && Odd(w[i])
    ensures Harmless(w)
  {
    hide SPECIAL_SHAPES, MANAGEMENT, DIRECTIVES;
    var i :| 0 <= i < |w| && Odd(w[i]);
    TrimLeftHolds(w, w[i]);
    TrimRightHolds(TrimLeft(w), w[i]);
    var j :| 0 <= j < |Identifier(w)| && Identifier(w)[j] == w[i];
    assert Keyword(w)[j] == w[i];
    if Special(Keyword(w)) {
      SpecialIsLetters(Keyword(w));
    }
  }

  lemma OddIsMild(w: string)
    requires OddWord(w)
    ensures MildToken(Word(w))
  {
    OddIsHarmless(w);
    hide Harmless;
    assert Core(w) == w;
  }

  lemma OddGoesOn(w: string)
    requires OddWord(w)
    ensures MildToken(Word(w + ","))
  {
    var i :| 0 <= i < |w| && Odd(w[i]);
    assert (w + ",")[i] == w[i];
    OddIsMild(w + ",");
  }

  lemma OddEnds(w: string)
    requires OddWord(w)
    ensures MildToken(Word(w + ";"))
  {
    OddIsHarmless(w);
    hide Harmless;
    assert Core(w + ";") == w;
  }

  lemma BraceIsMild()
    ensures MildToken(Word("{")) && MildToken(Word("}"))
  {
    QuietBrace();
    hide MANAGEMENT, DIRECTIVES;
    assert TrimLeft("{") == "" && TrimLeft("}") == "";
    if Special("") {
      SpecialIsLetters("");
    }
  }

  lemma QuotedIsMild(t: string, after: string)
    requires PieceOk(Quoted(t)) && (after == "" || after == ";")
    ensures MildToken(Str(t, after))
  {
    var w := "\"_\"";
    assert w[0] == '"' && Odd(w[0]);
    OddIsHarmless(w);
    hide Harmless;
    assert w + "" == w && Core(w) == w && Core(w + ";") == w;
  }
}
