/**
 What a clean verdict says about an expression itself, in terms of its fields and of the numbers its texts
 spell: numerals are taken apart by division, and nothing here uses the scanner's own classification.
 */
module MarkMeaning {
  import opened Wrappers
  import opened MarkBits
  import opened MarkFaults
  import opened MarkIndependence
  import opened MarkScan
  import opened Numerals

  const DECIMAL_DIGITS := "0123456789"
  const LOWER_DIGITS := "0123456789abcdef"
  const UPPER_DIGITS := "0123456789ABCDEF"

  // ---- Numerals ----

  /** The text is the number in decimal, leading zeros allowed. */
  ghost predicate SpellsDecimal(text: string, n: nat)
    decreases |text|
  {
    && text != "" && text[|text| - 1] == DECIMAL_DIGITS[n % 10]
    && if |text| == 1 then n < 10 else SpellsDecimal(text[..|text| - 1], n / 10)
  }

  /** The text without the separator that may end it. */
  function Unseparated(text: string): string {
    if text != "" && text[|text| - 1] == '_' then text[..|text| - 1] else text
  }

  /** The text is the number in hexadecimal, in either case, with at most one separator in front of a digit. */
  ghost predicate SpellsHex(text: string, n: nat)
    decreases |text|
  {
    && text != "" && (text[|text| - 1] == LOWER_DIGITS[n % 16] || text[|text| - 1] == UPPER_DIGITS[n % 16])
    && var before := Unseparated(text[..|text| - 1]);
      if before == "" then n < 16 else SpellsHex(before, n / 16)
  }

  ghost predicate Denotes(text: string, n: nat) {
    || SpellsDecimal(text, n)
    || (|text| > 2 && text[0] == '0' && (text[1] == 'x' || text[1] == 'X') && SpellsHex(text[2..], n))
  }

  lemma DecimalDigit(c: char, d: nat)
    requires d < 10
    ensures c == DECIMAL_DIGITS[d] <==> DigitOf(c) == d
  {
    assert forall i :: 0 <= i < 10 ==> DECIMAL_DIGITS[i] == '0' + i as char;
  }

  lemma HexDigit(c: char, d: nat)
    requires d < 16
    ensures (c == LOWER_DIGITS[d] || c == UPPER_DIGITS[d]) <==> DigitOf(c) == d
  {
    assert forall i :: 0 <= i < 10 ==> LOWER_DIGITS[i] == '0' + i as char && UPPER_DIGITS[i] == '0' + i as char;
    assert forall i :: 10 <= i < 16 ==> LOWER_DIGITS[i] == 'a' + (i - 10) as char && UPPER_DIGITS[i] == 'A' + (i - 10) as char;
  }

  /** Reading one digit more is division by the base. */
  lemma PositionalStep(text: string, n: nat, hex: bool)
    requires text != "" && text[|text| - 1] != '_'
    ensures Positional(text, hex) == Some(n) <==>
      DigitOf(text[|text| - 1]) == n % (if hex then 16 else 10) && Positional(text[..|text| - 1], hex) == Some(n / if hex then 16 else 10)
  {
    var before := Positional(text[..|text| - 1], hex);
    hide DigitOf;
    if before.Some? {
      var d := DigitOf(text[|text| - 1]);
      assert d < 16 ==> (16 * before.value + d) / 16 == before.value && (16 * before.value + d) % 16 == d;
      assert d < 10 ==> (10 * before.value + d) / 10 == before.value && (10 * before.value + d) % 10 == d;
    }
  }

  lemma {:induction false} DecimalIsPositional(text: string, n: nat)
    requires text != ""
    ensures Positional(text, false) == Some(n) <==> SpellsDecimal(text, n)
    decreases |text|
  {
    var c, rest := text[|text| - 1], text[..|text| - 1];
    DecimalDigit(c, n % 10);
    if c == '_' {
      assert DigitOf(c) == 36 && Positional(text, false).None?;
    } else {
      PositionalStep(text, n, false);
      if rest != "" {
        DecimalIsPositional(rest, n / 10);
      }
      assert Positional("", false) == Some(0);
      hide Positional, DigitOf;
    }
  }

  lemma {:induction false} HexIsPositional(text: string, n: nat)
    requires text != ""
    ensures Positional(text, true) == Some(n) && UnderscoresSeparate(text) <==> SpellsHex(text, n)
    decreases |text|
  {
    var c, before := text[|text| - 1], Unseparated(text[..|text| - 1]);
    HexDigit(c, n % 16);
    if c == '_' {
      assert DigitOf(c) == 36 && !UnderscoresSeparate(text);
    } else {
      PositionalStep(text, n, true);
      SeparatedBefore(text);
      if before != "" {
        HexIsPositional(before, n / 16);
      }
      hide Positional, DigitOf, UnderscoresSeparate, Unseparated;
      assert SpellsHex(text, n) <==> DigitOf(c) == n % 16 && if before == "" then n < 16 else SpellsHex(before, n / 16);
      NothingSpelled();
    }
  }

  lemma NothingSpelled()
    ensures Positional("", true) == Some(0) && UnderscoresSeparate("")
  {
  }

  lemma SeparatedBefore(text: string)
    requires text != "" && text[|text| - 1] != '_'
    ensures var before := Unseparated(text[..|text| - 1]);
      && (UnderscoresSeparate(text) <==> UnderscoresSeparate(before))
      && Positional(text[..|text| - 1], true) == Positional(before, true)
  {
    var rest := text[..|text| - 1];
    var before := Unseparated(rest);
    if rest != before {
      assert rest == before + ['_'];
      if before != "" && before[|before| - 1] == '_' {
        assert text[|before|] == '_' && text[|before| - 1] == '_';
      }
    }
  }

  lemma {:induction false} DecimalChars(text: string, n: nat, i: nat)
    requires SpellsDecimal(text, n) && i < |text|
    ensures '0' <= text[i] <= '9'
    decreases |text|
  {
    DecimalDigit(text[|text| - 1], n % 10);
    if i < |text| - 1 {
      DecimalChars(text[..|text| - 1], n / 10, i);
    }
  }

  lemma {:induction false} HexEnds(text: string, n: nat)
    requires SpellsHex(text, n)
    ensures !IsSpace(text[|text| - 1])
  {
    HexDigit(text[|text| - 1], n % 16);
  }

  /** The scanner's constants are exactly the numerals of the 32-bit numbers, each read as its number. */
  lemma ConstantsAreNumerals(text: string, n: nat)
    ensures Constant(text) == Some(n) <==> n < 0x1_0000_0000 && Denotes(text, n)
  {
    if text != "" {
      DecimalIsPositional(text, n);
      if SpellsDecimal(text, n) {
        DecimalChars(text, n, 0);
        DecimalChars(text, n, |text| - 1);
        if |text| > 1 {
          DecimalChars(text, n, 1);
        }
      }
      if |text| > 2 {
        HexIsPositional(text[2..], n);
        if SpellsHex(text[2..], n) {
          HexEnds(text[2..], n);
        }
      }
      hide Positional, UnderscoresSeparate, SpellsDecimal, SpellsHex;
    }
  }

  /** A numeral of a number that does not fit is no constant. */
  lemma LargeIsNoConstant(text: string, n: nat)
    requires Denotes(text, n) && n >= 0x1_0000_0000
    ensures Constant(text).None?
  {
    if Constant(text).Some? {
      var m := Constant(text).value;
      ConstantsAreNumerals(text, m);
      OneNumber(text, n, m);
    }
  }

  lemma OneNumber(text: string, n: nat, m: nat)
    requires Denotes(text, n) && Denotes(text, m)
    ensures n == m
  {
    DecimalIsPositional(text, n);
    DecimalIsPositional(text, m);
    if |text| > 2 {
      HexIsPositional(text[2..], n);
      HexIsPositional(text[2..], m);
      if SpellsDecimal(text, n) {
        DecimalChars(text, n, 1);
      }
      if SpellsDecimal(text, m) {
        DecimalChars(text, m, 1);
      }
    }
    hide Positional, UnderscoresSeparate, SpellsDecimal, SpellsHex;
  }

  lemma {:induction false} DecimalSpells(n: nat)
    ensures SpellsDecimal(Decimal(n), n)
  {
    DecimalDigit(Decimal(n)[|Decimal(n)| - 1], n % 10);
    if n >= 10 {
      DecimalSpells(n / 10);
      assert Decimal(n)[..|Decimal(n)| - 1] == Decimal(n / 10);
    }
  }

  /** Decimal texts of the 32-bit numbers are read as those numbers, and of no others. */
  lemma DecimalConstant(n: nat)
    ensures Constant(Decimal(n)) == if n < 0x1_0000_0000 then Some(n) else None
  {
    DecimalSpells(n);
    if n < 0x1_0000_0000 {
      ConstantsAreNumerals(Decimal(n), n);
    } else {
      LargeIsNoConstant(Decimal(n), n);
    }
  }

  // ---- Words ----

  /** A word from its bytes, the highest first. */
  function Joined(a: bv8, b: bv8, c: bv8, d: bv8): bv32 {
    Above24(a, Above16(b, Above8(c, d)))
  }

  function Above8(high: bv8, low: bv8): bv16 {
    ((high as bv16) << 8) | (low as bv16)
  }

  function Above16(high: bv8, low: bv16): bv24 {
    ((high as bv24) << 16) | (low as bv24)
  }

  function Above24(high: bv8, low: bv24): bv32 {
    ((high as bv32) << 24) | (low as bv32)
  }

  lemma Number8(high: bv8, low: bv8)
    ensures (((high as bv16) << 8) | (low as bv16)) as nat == 0x100 * (high as nat) + low as nat
  {
  }

  lemma Number16(high: bv8, low: bv16)
    ensures (((high as bv24) << 16) | (low as bv24)) as nat == 0x1_0000 * (high as nat) + low as nat
  {
  }

  lemma Number24(high: bv8, low: bv24)
    ensures (((high as bv32) << 24) | (low as bv32)) as nat == 0x100_0000 * (high as nat) + low as nat
  {
  }

  lemma JoinedNumber(a: bv8, b: bv8, c: bv8, d: bv8)
    ensures Joined(a, b, c, d) as nat == 0x100_0000 * (a as nat) + 0x1_0000 * (b as nat) + 0x100 * (c as nat) + d as nat
  {
    var low := ((c as bv16) << 8) | (d as bv16);
    var middle := ((b as bv24) << 16) | (low as bv24);
    Number8(c, d);
    Number16(b, low);
    Number24(a, middle);
  }

  function HalfByte(n: nat): (b: bv4)
    requires n < 16
    ensures b as nat == n
  {
    match n
    case 0 => 0
    case 1 => 1
    case 2 => 2
    case 3 => 3
    case 4 => 4
    case 5 => 5
    case 6 => 6
    case 7 => 7
    case 8 => 8
    case 9 => 9
    case 10 => 10
    case 11 => 11
    case 12 => 12
    case 13 => 13
    case 14 => 14
    case _ => 15
  }

  lemma Number4(high: bv4, low: bv4)
    ensures (((high as bv8) << 4) | (low as bv8)) as nat == 0x10 * (high as nat) + low as nat
  {
  }

  lemma ByteOf(n: nat) returns (b: bv8)
    requires n < 0x100
    ensures b as nat == n
  {
    var high, low := HalfByte(n / 16), HalfByte(n % 16);
    Number4(high, low);
    b := ((high as bv8) << 4) | (low as bv8);
  }

  lemma WordOf(w: bv32)
    ensures Word(w as nat) == w
  {
  }

  lemma Bytes(n: nat) returns (a: bv8, b: bv8, c: bv8, d: bv8)
    requires n < 0x1_0000_0000
    ensures n == 0x100_0000 * (a as nat) + 0x1_0000 * (b as nat) + 0x100 * (c as nat) + d as nat
  {
    var w, x, y, z := n / 0x100_0000, n / 0x1_0000 % 0x100, n / 0x100 % 0x100, n % 0x100;
    assert n == 0x100_0000 * w + 0x1_0000 * x + 0x100 * y + z;
    a := ByteOf(w);
    b := ByteOf(x);
    c := ByteOf(y);
    d := ByteOf(z);
  }

  lemma SomeWord(n: nat) returns (w: bv32)
    requires n < 0x1_0000_0000
    ensures w as nat == n
  {
    hide Joined;
    var a, b, c, d := Bytes(n);
    JoinedNumber(a, b, c, d);
    w := Joined(a, b, c, d);
  }

  /** A word has the number it was made of. */
  lemma WordIsNumber(n: nat)
    requires n < 0x1_0000_0000
    ensures Word(n) as nat == n
  {
    hide Word;
    var w := SomeWord(n);
    WordOf(w);
  }

  lemma HighByte(w: bv32)
    ensures Reserved(w) == 0 <==> (w as nat) < 0x100_0000
  {
    assert w & MASK == 0 <==> w < 0x100_0000;
  }

  /** The reserved byte of a word is its number's high byte. */
  lemma ReservedIsHigh(n: nat)
    requires n < 0x1_0000_0000
    ensures Reserved(Word(n)) == 0 <==> n < 0x100_0000
  {
    WordIsNumber(n);
    hide Word, Reserved;
    HighByte(Word(n));
  }

  // ---- Fields ----

  /** The first field with this key is at i. */
  ghost predicate StandsAt(fields: seq<Field>, key: string, i: nat) {
    i < |fields| && fields[i].key == key && forall j :: 0 <= j < i ==> fields[j].key != key
  }

  /** The value an object has under a key. */
  ghost predicate Under(fields: seq<Field>, key: string, v: Json) {
    exists i: nat :: StandsAt(fields, key, i) && fields[i].value == v
  }

  /** The object's ct field is an object whose key is the mark. */
  ghost predicate NamesMark(fields: seq<Field>) {
    exists body :: Under(fields, "ct", Object(body)) && Under(body, "key", Text("mark"))
  }

  /** It has a ct field that is no object whose key is a text. */
  ghost predicate OddCt(fields: seq<Field>) {
    exists v :: Under(fields, "ct", v) && !(v.Object? && exists t :: Under(v.fields, "key", Text(t)))
  }

  lemma UnderIs(fields: seq<Field>, key: string)
    ensures Has(fields, key) ==> forall v :: Under(fields, key, v) <==> v == fields[IndexOf(fields, key)].value
    ensures !Has(fields, key) ==> forall v :: !Under(fields, key, v)
    ensures Has(fields, key) <==> exists i :: 0 <= i < |fields| && fields[i].key == key
  {
    var k := IndexOf(fields, key);
    if k < |fields| {
      assert StandsAt(fields, key, k);
      forall i: nat | StandsAt(fields, key, i) ensures i == k {
      }
    }
  }

  lemma DescriptorMeans(fields: seq<Field>)
    ensures MarkDescriptor(fields).Mark? <==> NamesMark(fields)
    ensures MarkDescriptor(fields).Broken? <==> OddCt(fields)
  {
    UnderIs(fields, "ct");
    if Has(fields, "ct") {
      var v := fields[IndexOf(fields, "ct")].value;
      assert Under(fields, "ct", v);
      if v.Object? {
        UnderIs(v.fields, "key");
      }
    }
    hide Under, IndexOf;
  }

  // ---- Masks ----

  /** An object that is nothing but a read of the mark, however the family and direction are given. */
  ghost predicate BareRead(v: Json) {
    && v.Object? && |v.fields| == 1 && NamesMark(v.fields)
    && forall body: seq<Field> :: Under(v.fields, "ct", Object(body)) ==>
      forall k :: 0 <= k < |body| ==> body[k].key == "key" || body[k].key == "family" || body[k].key == "dir"
  }

  lemma BareReadMeans(v: Json)
    ensures CanonicalRead(v) <==> BareRead(v)
  {
    if v.Object? {
      DescriptorMeans(v.fields);
      UnderIs(v.fields, "ct");
      hide Under, NamesMark, OddCt, IndexOf;
    }
  }

  /** A text or number that spells a number below two to the 24th. */
  ghost predicate ClearConstant(v: Json) {
    (v.Number? || v.Text?) && exists n: nat :: n < 0x100_0000 && Denotes(v.text, n)
  }

  lemma ConstantMeans(v: Json)
    ensures ConstantOf(v).Some? <==> (v.Number? || v.Text?) && exists n: nat :: n < 0x1_0000_0000 && Denotes(v.text, n)
    ensures ConstantOf(v).Some? && Reserved(ConstantOf(v).value) == 0 <==> ClearConstant(v)
  {
    if v.Number? || v.Text? {
      if Constant(v.text).Some? {
        var n := Constant(v.text).value;
        ConstantsAreNumerals(v.text, n);
        ReservedIsHigh(n);
        hide Denotes, Constant, Word, Reserved;
        forall m: nat | Denotes(v.text, m) ensures m == n {
          OneNumber(v.text, m, n);
        }
      } else {
        hide Word, Reserved;
        forall n: nat | n < 0x1_0000_0000 ensures !Denotes(v.text, n) {
          ConstantsAreNumerals(v.text, n);
        }
      }
    }
  }

  lemma {:induction false} MasksMean(operands: seq<Json>, read: nat, i: nat)
    requires i <= |operands|
    ensures MasksFrom(operands, read, i).Clean? <==> forall k :: i <= k < |operands| && k != read ==> ClearConstant(operands[k])
    decreases |operands| - i
  {
    hide ConstantOf, ClearConstant, Reserved;
    if i < |operands| {
      ConstantMeans(operands[i]);
      MasksMean(operands, read, i + 1);
    }
  }

  lemma {:induction false} FindsOnly(operands: seq<Json>, i: nat, k: nat, found: Option<nat>)
    requires i <= |operands| && k < |operands| && CanonicalRead(operands[k])
    requires forall j :: 0 <= j < |operands| && j != k ==> !operands[j].Object?
    requires if i <= k then found.None? else found == Some(k)
    ensures FindRead(operands, i, found) == At(k)
    decreases |operands| - i
  {
    if i < |operands| {
      assert i == k ==> !BrokenRead(operands[i]);
      FindsOnly(operands, i + 1, k, if i == k then Some(k) else found);
    }
  }

  lemma {:induction false} NowhereMeans(operands: seq<Json>, i: nat, found: Option<nat>)
    requires i <= |operands| && FindRead(operands, i, found).Nowhere?
    ensures found.None? && forall k :: i <= k < |operands| ==> !CanonicalRead(operands[k]) && !BrokenRead(operands[k])
    decreases |operands| - i
  {
    hide CanonicalRead, BrokenRead;
    if i < |operands| {
      NowhereMeans(operands, i + 1, if CanonicalRead(operands[i]) then Some(i) else found);
    }
  }

  /** The k-th operand is a bare read and every other one a clear constant. */
  ghost predicate ClearMask(operands: seq<Json>, k: nat) {
    && k < |operands| && BareRead(operands[k])
    && forall j :: 0 <= j < |operands| && j != k ==> ClearConstant(operands[j])
  }

  /** A mask with a bare read among its operands is clean exactly when everything else in it is a clear constant. */
  lemma MaskMeans(operands: seq<Json>)
    requires |operands| >= 2 && exists k :: 0 <= k < |operands| && BareRead(operands[k])
    ensures VerdictOfAnd(Array(operands)).Clean? <==> exists k: nat :: ClearMask(operands, k)
  {
    forall k | 0 <= k < |operands| ensures CanonicalRead(operands[k]) <==> BareRead(operands[k]) {
      BareReadMeans(operands[k]);
    }
    hide CanonicalRead, BareRead, ClearConstant, MasksFrom, FindRead, VerdictFrom;
    if k: nat :| ClearMask(operands, k) {
      NoObjects(operands, k);
      FindsOnly(operands, 0, k, None);
      MasksMean(operands, k, 0);
    }
    match FindRead(operands, 0, None)
    case At(k) =>
      FoundRead(operands, 0, None);
      MasksMean(operands, k, 0);
      assert MasksFrom(operands, k, 0).Clean? ==> ClearMask(operands, k);
    case Nowhere => NowhereMeans(operands, 0, None);
    case _ =>
  }

  lemma NoObjects(operands: seq<Json>, k: nat)
    requires ClearMask(operands, k)
    ensures forall j :: 0 <= j < |operands| && j != k ==> !operands[j].Object?
  {
    hide BareRead;
  }

  // ---- Whole expressions ----

  /** The one-field object that asks for a bitwise and of at least two operands, one of them a bare read. */
  ghost predicate MasksRead(fields: seq<Field>) {
    && |fields| == 1 && fields[0].key == "&" && fields[0].value.Array? && |fields[0].value.items| >= 2
    && exists k :: 0 <= k < |fields[0].value.items| && BareRead(fields[0].value.items[k])
  }

  /** An assignment of one value to one key. */
  predicate Assigns(v: Json) {
    && v.Object? && |v.fields| == 2
    && (v.fields[0].key == "key" || v.fields[1].key == "key") && (v.fields[0].key == "value" || v.fields[1].key == "value")
  }

  /**
   No part of the expression can depend on the reserved byte or write the mark: no opaque statement, no
   mention of the mark but as the one bare read in a mask of clear constants, and nothing ill formed.
   */
  ghost predicate Harmless(v: Json)
    decreases v
  {
    match v
    case Array(items) => forall i :: 0 <= i < |items| ==> Harmless(items[i])
    case Object(fields) =>
      if MasksRead(fields) then exists k: nat :: ClearMask(fields[0].value.items, k)
      else
        && (forall i :: 0 <= i < |fields| ==> fields[i].key != "xt")
        && !NamesMark(fields) && !OddCt(fields)
        && forall i :: 0 <= i < |fields| ==>
          if fields[i].key == "mangle" then
            Assigns(fields[i].value) && forall j :: 0 <= j < |fields[i].value.fields| ==> Harmless(fields[i].value.fields[j].value)
          else Harmless(fields[i].value)
    case _ => true
  }

  lemma {:induction false} FieldsClean(fields: seq<Field>, i: nat)
    requires i <= |fields|
    ensures VerdictOfFields(fields, i).Clean? <==> forall k :: i <= k < |fields| ==> VerdictOfField(fields[k]).Clean?
    decreases |fields| - i
  {
    hide VerdictOfField;
    if i < |fields| {
      FieldsClean(fields, i + 1);
    }
  }

  /** What an object under "&" alone is not. */
  lemma MaskIsNoMark(fields: seq<Field>)
    requires |fields| == 1 && fields[0].key == "&"
    ensures !Has(fields, "ct") && !Has(fields, "xt") && !NamesMark(fields) && !OddCt(fields)
  {
    UnderIs(fields, "ct");
    UnderIs(fields, "xt");
    DescriptorMeans(fields);
  }

  lemma TargetMeans(v: Json)
    ensures VerdictOfTarget(v).Clean? <==> VerdictOf(v).Clean?
  {
    if v.Object? && |v.fields| == 1 && v.fields[0].key == "&" {
      MaskIsNoMark(v.fields);
    }
    hide VerdictOfFields, VerdictOfAnd, VerdictFrom;
  }

  lemma MangleMeans(v: Json)
    ensures VerdictOfMangle(v).Clean? <==> Assigns(v) && forall j :: 0 <= j < |v.fields| ==> VerdictOf(v.fields[j].value).Clean?
  {
    hide VerdictOf, VerdictOfTarget;
    if v.Object? {
      UnderIs(v.fields, "key");
      UnderIs(v.fields, "value");
      var i, j := IndexOf(v.fields, "key"), IndexOf(v.fields, "value");
      if i < |v.fields| && j < |v.fields| && |v.fields| == 2 {
        TargetMeans(v.fields[i].value);
        assert v.fields[i].key == "key" && v.fields[j].key == "value";
        assert i != j && (i == 0 || i == 1) && (j == 0 || j == 1);
      }
    }
  }

  lemma {:induction false} WithoutRead(operands: seq<Json>, i: nat)
    requires i <= |operands| && forall k :: 0 <= k < |operands| ==> !CanonicalRead(operands[k])
    ensures FindRead(operands, i, None).Nowhere? || FindRead(operands, i, None).Faulty?
    ensures FindRead(operands, i, None).Faulty? <==> exists k :: i <= k < |operands| && BrokenRead(operands[k])
    decreases |operands| - i
  {
    hide CanonicalRead, BrokenRead;
    if i < |operands| {
      WithoutRead(operands, i + 1);
    }
  }

  lemma BrokenIsHarmful(v: Json)
    requires BrokenRead(v)
    ensures VerdictOf(v).Malformed?
  {
    if v.fields[0].key == "&" {
      MaskIsNoMark(v.fields);
    }
    UnderIs(v.fields, "ct");
    UnderIs(v.fields, "xt");
    hide VerdictOfFields, VerdictOfAnd, VerdictFrom;
  }

  /** A mask without a bare read is judged by its operands. */
  lemma PlainMaskMeans(operands: seq<Json>)
    requires |operands| >= 2 && forall k :: 0 <= k < |operands| ==> !CanonicalRead(operands[k])
    ensures VerdictOfAnd(Array(operands)).Clean? <==> forall k :: 0 <= k < |operands| ==> VerdictOf(operands[k]).Clean?
  {
    WithoutRead(operands, 0);
    ArrayVerdict(operands, 0);
    forall k | 0 <= k < |operands| && BrokenRead(operands[k]) ensures VerdictOf(operands[k]).Malformed? {
      BrokenIsHarmful(operands[k]);
    }
    hide FindRead, VerdictFrom, VerdictOf, CanonicalRead, BrokenRead;
  }

  /** The scanner's clean verdict on an expression within the limits is exactly that none of its parts is harmful. */
  lemma {:induction false} CleanMeans(v: Json)
    ensures VerdictOf(v).Clean? <==> Harmless(v)
    decreases v
  {
    match v
    case Array(items) =>
      ArrayVerdict(items, 0);
      forall i | 0 <= i < |items| ensures VerdictOf(items[i]).Clean? <==> Harmless(items[i]) {
        CleanMeans(items[i]);
      }
    case Object(fields) =>
      if |fields| == 1 && fields[0].key == "&" {
        MaskCleanMeans(fields);
      } else {
        ObjectCleanMeans(fields);
      }
    case _ =>
  }

  lemma {:induction false} MaskCleanMeans(fields: seq<Field>)
    requires |fields| == 1 && fields[0].key == "&"
    ensures VerdictOfAnd(fields[0].value).Clean? <==> Harmless(Object(fields))
    decreases fields
  {
    MaskIsNoMark(fields);
    CleanMeans(fields[0].value);
    var body := fields[0].value;
    if Masking(body) {
      forall k | 0 <= k < |body.items| ensures CanonicalRead(body.items[k]) <==> BareRead(body.items[k]) {
        BareReadMeans(body.items[k]);
      }
      if MasksRead(fields) {
        MaskMeans(body.items);
      } else {
        PlainMaskMeans(body.items);
        ArrayVerdict(body.items, 0);
      }
    }
    hide CanonicalRead, BareRead, FindRead, VerdictFrom, NamesMark, OddCt, ClearMask;
  }

  lemma {:induction false} ObjectCleanMeans(fields: seq<Field>)
    requires !(|fields| == 1 && fields[0].key == "&")
    ensures VerdictOf(Object(fields)).Clean? <==> Harmless(Object(fields))
    decreases fields
  {
    UnderIs(fields, "xt");
    DescriptorMeans(fields);
    FieldsClean(fields, 0);
    forall i | 0 <= i < |fields|
      ensures VerdictOfField(fields[i]).Clean? <==>
        if fields[i].key == "mangle" then
          Assigns(fields[i].value) && forall j :: 0 <= j < |fields[i].value.fields| ==> Harmless(fields[i].value.fields[j].value)
        else Harmless(fields[i].value)
    {
      if fields[i].key == "mangle" {
        MangleMeans(fields[i].value);
        if Assigns(fields[i].value) {
          forall j | 0 <= j < |fields[i].value.fields|
            ensures VerdictOf(fields[i].value.fields[j].value).Clean? <==> Harmless(fields[i].value.fields[j].value)
          {
            CleanMeans(fields[i].value.fields[j].value);
          }
        }
      } else {
        CleanMeans(fields[i].value);
      }
    }
    hide VerdictOfField, VerdictOfFields, Assigns, NamesMark, OddCt, Under;
  }

  // ---- A read masked with a written number ----

  const MARK_READ := Object([Field("ct", Object([Field("key", Text("mark"))]))])

  lemma MarkReadIsBare()
    ensures CanonicalRead(MARK_READ) && !BrokenRead(MARK_READ)
  {
    var body := [Field("key", Text("mark"))];
    assert MARK_READ.fields == [Field("ct", Object(body))];
    assert IndexOf(MARK_READ.fields, "ct") == 0 && IndexOf(body, "key") == 0;
    assert MarkDescriptor(MARK_READ.fields) == Mark(body);
  }

  lemma NumberDenoted(v: Json, n: nat)
    requires n < 0x1_0000_0000 && (v == Text(Decimal(n)) || v == Number(Decimal(n)))
    ensures ConstantOf(v) == Some(Word(n)) && (Reserved(Word(n)) == 0 <==> n < 0x100_0000)
  {
    DecimalConstant(n);
    ReservedIsHigh(n);
  }

  /** The mark under a written 32-bit number, on either side, as a text or a number: clean exactly below two to the 24th. */
  lemma WrittenMaskVerdict(n: nat, v: Json)
    requires n < 0x1_0000_0000 && (v == Text(Decimal(n)) || v == Number(Decimal(n)))
    ensures VerdictOf(Object([Field("&", Array([MARK_READ, v]))])) == if n < 0x100_0000 then Clean else Collides(OverlappingMask)
    ensures VerdictOf(Object([Field("&", Array([v, MARK_READ]))])) == if n < 0x100_0000 then Clean else Collides(OverlappingMask)
  {
    MarkReadIsBare();
    NumberDenoted(v, n);
    hide Word, Reserved, Decimal, ConstantOf, MARK_READ;
    var left, right := [MARK_READ, v], [v, MARK_READ];
    FindsOnly(left, 0, 0, None);
    FindsOnly(right, 0, 1, None);
    hide FindRead, CanonicalRead, BrokenRead;
    MaskSteps(left, 0, 1, n);
    MaskSteps(right, 1, 0, n);
    assert VerdictOf(Object([Field("&", Array(left))])) == VerdictOfAnd(Array(left)) == MasksFrom(left, 0, 0);
    assert VerdictOf(Object([Field("&", Array(right))])) == VerdictOfAnd(Array(right)) == MasksFrom(right, 1, 0);
  }

  lemma MaskSteps(operands: seq<Json>, read: nat, other: nat, n: nat)
    requires |operands| == 2 && read + other == 1 && n < 0x1_0000_0000 && ConstantOf(operands[other]) == Some(Word(n))
    requires Reserved(Word(n)) == 0 <==> n < 0x100_0000
    ensures MasksFrom(operands, read, 0) == if n < 0x100_0000 then Clean else Collides(OverlappingMask)
  {
    hide ConstantOf, Word, Reserved;
    assert MasksFrom(operands, read, 2) == Clean;
    assert MasksFrom(operands, read, 1) == if other == 1 && n >= 0x100_0000 then Collides(OverlappingMask) else Clean;
  }

  /** The ruleset check, in these terms: every foreign rule is harmless. */
  lemma CleanRuleMeans(r: Rule)
    ensures CleanRule(r) <==> forall i :: 0 <= i < |r.expressions| ==> Harmless(r.expressions[i])
  {
    CleanMeans(Array(r.expressions));
  }
}
