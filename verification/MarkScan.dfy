/**
 The scanner that audits foreign nftables rules for any use of the reserved byte of the conntrack
 mark: decoded JSON expressions, the verdict on one as a function, and the recursive scanner with its
 node counter and its limits.
 */
module MarkScan {
  import opened Wrappers
  import opened MarkBits

  /** A decoded JSON value; an object's fields stand in ascending key order, as the scanner visits them. */
  datatype Json =
    | Null
    | Bool(b: bool)
    | Number(text: string)
    | Text(text: string)
    | Array(items: seq<Json>)
    | Object(fields: seq<Field>)

  datatype Field = Field(key: string, value: Json)

  datatype Reason =
    | OpaqueXt | WritesMark | ReadsUnmasked
    | MultipleReads | UnverifiableMask | OverlappingMask

  datatype Fault =
    | TooManyNodes | TooDeep
    | MangleNotObject | MangleShape
    | CtNotObject | CtNoKey | CtKeyNotString

  datatype Verdict = Clean | Collides(reason: Reason) | Malformed(fault: Fault)

  const MAX_DEPTH: nat := 64
  const MAX_NODES: nat := 2_000_000

  /** The position of the first field with this key, or |fields|. */
  function IndexOf(fields: seq<Field>, key: string): (i: nat)
    ensures i <= |fields|
    ensures i < |fields| ==> fields[i].key == key
    ensures forall j :: 0 <= j < i ==> fields[j].key != key
  {
    if fields == [] then 0 else if fields[0].key == key then 0 else
      var rest := IndexOf(fields[1..], key);
      assert forall j :: 1 <= j < rest + 1 ==> fields[j] == fields[1..][j - 1];
      rest + 1
  }

  predicate Has(fields: seq<Field>, key: string) {
    IndexOf(fields, key) < |fields|
  }

  // ---- Classification ----

  datatype Descriptor = NotMark | Mark(body: seq<Field>) | Broken(fault: Fault)

  /** Whether an object is a conntrack-mark descriptor. */
  function MarkDescriptor(fields: seq<Field>): Descriptor {
    if !Has(fields, "ct") then NotMark
    else match fields[IndexOf(fields, "ct")].value
      case Object(body) =>
        if !Has(body, "key") then Broken(CtNoKey)
        else (match body[IndexOf(body, "key")].value
          case Text(t) => if t == "mark" then Mark(body) else NotMark
          case _ => Broken(CtKeyNotString))
      case _ => Broken(CtNotObject)
  }

  function DescriptorOf(v: Json): Descriptor {
    if v.Object? then MarkDescriptor(v.fields) else NotMark
  }

  predicate OnlyReadKeys(body: seq<Field>) {
    forall i :: 0 <= i < |body| ==> body[i].key == "key" || body[i].key == "family" || body[i].key == "dir"
  }

  /** A bare read of the mark: nothing else in the object, nothing unexpected in the descriptor. */
  predicate CanonicalRead(v: Json) {
    v.Object? && |v.fields| == 1 && MarkDescriptor(v.fields).Mark? && OnlyReadKeys(MarkDescriptor(v.fields).body)
  }

  predicate BrokenRead(v: Json) {
    v.Object? && |v.fields| == 1 && MarkDescriptor(v.fields).Broken?
  }

  // ---- Constants ----

  function DigitOf(c: char): nat {
    if '0' <= c <= '9' then (c - '0') as nat
    else if 'a' <= c <= 'z' then (c - 'a') as nat + 10
    else if 'A' <= c <= 'Z' then (c - 'A') as nat + 10
    else 36
  }

  function Shift(n: nat, hex: bool): (r: nat)
    ensures r >= n
  {
    if hex then 16 * n else 10 * n
  }

  function Base(hex: bool): nat {
    if hex then 16 else 10
  }

  /** Positional notation: every character is a digit of the base or, in hexadecimal, an underscore. */
  function Positional(text: string, hex: bool): Option<nat> {
    if text == [] then Some(0)
    else
      var c := text[|text| - 1];
      var before := Positional(text[..|text| - 1], hex);
      if before.None? then None
      else if c == '_' && hex then before
      else if DigitOf(c) < Base(hex) then Some(Shift(before.value, hex) + DigitOf(c))
      else None
  }

  /** Underscores only between digits; a base prefix counts as a digit. */
  predicate UnderscoresSeparate(digits: string) {
    && (|digits| > 0 ==> digits[|digits| - 1] != '_')
    && forall i :: 0 < i < |digits| ==> !(digits[i] == '_' && digits[i - 1] == '_')
  }

  predicate IsSpace(c: char) {
    c == ' ' || c == '\t' || c == '\n' || c == '\r' || c == '\U{000B}' || c == '\U{000C}' || c == '\U{0085}' || c == '\U{00A0}'
  }

  predicate HexPrefixed(text: string) {
    |text| >= 2 && text[0] == '0' && (text[1] == 'x' || text[1] == 'X')
  }

  /** The 32-bit unsigned constant a text denotes, if it denotes one: decimal, or hexadecimal with a prefix. */
  function Constant(text: string): Option<nat> {
    var n :=
      if text == [] || IsSpace(text[0]) || IsSpace(text[|text| - 1]) then None
      else if HexPrefixed(text) then
        if |text| > 2 && UnderscoresSeparate(text[2..]) then Positional(text[2..], true) else None
      else Positional(text, false);
    if n.Some? && n.value < 0x1_0000_0000 then n else None
  }

  function Word(n: nat): bv32
    requires n < 0x1_0000_0000
  {
    n as bv32
  }

  function ConstantOf(v: Json): Option<bv32> {
    match v
    case Number(t) => var c := Constant(t); if c.None? then None else Some(Word(c.value))
    case Text(t) => var c := Constant(t); if c.None? then None else Some(Word(c.value))
    case _ => None
  }

  // ---- The verdict ----

  /** A fault anywhere wins over a collision anywhere; otherwise the earlier wins. */
  function Combine(a: Verdict, b: Verdict): Verdict {
    if a.Malformed? then a else if b.Malformed? then b else if a.Collides? then a else b
  }

  function VerdictOf(v: Json): Verdict
    decreases v, 0
  {
    match v
    case Array(items) => VerdictFrom(items, 0)
    case Object(fields) =>
      if |fields| == 1 && fields[0].key == "&" then VerdictOfAnd(fields[0].value)
      else if Has(fields, "xt") then Collides(OpaqueXt)
      else (match MarkDescriptor(fields)
        case Broken(f) => Malformed(f)
        case Mark(body) => Collides(if Has(body, "set") then WritesMark else ReadsUnmasked)
        case NotMark => VerdictOfFields(fields, 0))
    case _ => Clean
  }

  function VerdictFrom(vs: seq<Json>, i: nat): Verdict
    decreases vs, |vs| - i
  {
    if i >= |vs| then Clean else Combine(VerdictOf(vs[i]), VerdictFrom(vs, i + 1))
  }

  function VerdictOfField(f: Field): Verdict
    decreases f, 0
  {
    if f.key == "mangle" then VerdictOfMangle(f.value) else VerdictOf(f.value)
  }

  function VerdictOfFields(fields: seq<Field>, i: nat): Verdict
    decreases fields, |fields| - i
  {
    if i >= |fields| then Clean else Combine(VerdictOfField(fields[i]), VerdictOfFields(fields, i + 1))
  }

  function VerdictOfMangle(v: Json): Verdict
    decreases v, 1
  {
    if !v.Object? then Malformed(MangleNotObject)
    else
      var i, j := IndexOf(v.fields, "key"), IndexOf(v.fields, "value");
      if i == |v.fields| || j == |v.fields| || |v.fields| != 2 then Malformed(MangleShape)
      else
        Combine(VerdictOfTarget(v.fields[i].value), VerdictOf(v.fields[j].value))
  }

  /** What a mangle statement assigns to. */
  function VerdictOfTarget(v: Json): Verdict
    decreases v, 1
  {
    match DescriptorOf(v)
    case Broken(f) => Malformed(f)
    case Mark(_) => Collides(WritesMark)
    case NotMark => VerdictOf(v)
  }

  predicate Masking(body: Json) {
    body.Array? && |body.items| >= 2
  }

  function VerdictOfAnd(body: Json): Verdict
    decreases body, 1
  {
    if !Masking(body) then VerdictOf(body)
    else match FindRead(body.items, 0, None)
      case Faulty(f) => Malformed(f)
      case Twice => Collides(MultipleReads)
      case At(k) => MasksFrom(body.items, k, 0)
      case Nowhere => VerdictFrom(body.items, 0)
  }

  datatype Read = Nowhere | At(index: nat) | Twice | Faulty(fault: Fault)

  /** Where the one bare read of the mark is, given where one was found before i. */
  function FindRead(operands: seq<Json>, i: nat, found: Option<nat>): Read
    decreases |operands| - i
  {
    if i >= |operands| then if found.None? then Nowhere else At(found.value)
    else if BrokenRead(operands[i]) then Faulty(MarkDescriptor(operands[i].fields).fault)
    else if CanonicalRead(operands[i]) then if found.Some? then Twice else FindRead(operands, i + 1, Some(i))
    else FindRead(operands, i + 1, found)
  }

  /** Every operand from i on but the read is a constant clear of the reserved byte. */
  function MasksFrom(operands: seq<Json>, read: nat, i: nat): Verdict
    decreases |operands| - i
  {
    if i >= |operands| then Clean
    else if i == read then MasksFrom(operands, read, i + 1)
    else
      var c := ConstantOf(operands[i]);
      if c.None? then Collides(UnverifiableMask)
      else if Reserved(c.value) != 0 then Collides(OverlappingMask)
      else MasksFrom(operands, read, i + 1)
  }

  // ---- Sizes ----

  function Nodes(v: Json): (n: nat)
    ensures n >= 1
    decreases v, 0
  {
    match v
    case Array(items) => 1 + NodesFrom(items, 0)
    case Object(fields) => 1 + NodesOfFields(fields, 0)
    case _ => 1
  }

  function NodesFrom(vs: seq<Json>, i: nat): nat
    decreases vs, |vs| - i
  {
    if i >= |vs| then 0 else Nodes(vs[i]) + NodesFrom(vs, i + 1)
  }

  function NodesOfFields(fields: seq<Field>, i: nat): nat
    decreases fields, |fields| - i
  {
    if i >= |fields| then 0 else Nodes(fields[i].value) + NodesOfFields(fields, i + 1)
  }

  function Max(a: nat, b: nat): nat {
    if a < b then b else a
  }

  /** How much deeper than its own depth the scanner may go in a value. */
  function Height(v: Json): nat
    decreases v, 0
  {
    match v
    case Array(items) => 1 + HeightFrom(items, 0)
    case Object(fields) =>
      (if |fields| == 1 && fields[0].key == "&" && !Masking(fields[0].value) then 2 else 1) + HeightOfFields(fields, 0)
    case _ => 0
  }

  function HeightFrom(vs: seq<Json>, i: nat): nat
    decreases vs, |vs| - i
  {
    if i >= |vs| then 0 else Max(Height(vs[i]), HeightFrom(vs, i + 1))
  }

  function HeightOfFields(fields: seq<Field>, i: nat): nat
    decreases fields, |fields| - i
  {
    if i >= |fields| then 0 else Max(Height(fields[i].value), HeightOfFields(fields, i + 1))
  }

  lemma {:induction false} FieldWithin(fields: seq<Field>, i: nat, k: nat)
    requires i <= k < |fields|
    ensures Nodes(fields[k].value) <= NodesOfFields(fields, i)
    ensures Height(fields[k].value) <= HeightOfFields(fields, i)
    decreases k - i
  {
    if i < k {
      FieldWithin(fields, i + 1, k);
    }
  }

  lemma PairWithin(fields: seq<Field>, i: nat, j: nat)
    requires |fields| == 2 && i < 2 && j < 2 && i != j
    ensures Nodes(fields[i].value) + Nodes(fields[j].value) == NodesOfFields(fields, 0)
    ensures Height(fields[i].value) <= HeightOfFields(fields, 0) && Height(fields[j].value) <= HeightOfFields(fields, 0)
  {
    assert NodesOfFields(fields, 0) == Nodes(fields[0].value) + (Nodes(fields[1].value) + NodesOfFields(fields, 2));
    assert HeightOfFields(fields, 0) == Max(Height(fields[0].value), Max(Height(fields[1].value), HeightOfFields(fields, 2)));
  }

  predicate Limited(r: Verdict) {
    r == Malformed(TooManyNodes) || r == Malformed(TooDeep)
  }

  /** The scan of something of this size and height, begun at this depth, may hit no limit. */
  predicate Fits(nodes: nat, depth: nat, size: nat, height: nat) {
    nodes + size <= MAX_NODES && depth + height <= MAX_DEPTH
  }

  // ---- The scanner ----

  /** Reads a constant digit by digit, refusing anything outside 32 bits as it goes. */
  method ParseConstant(text: string) returns (r: Option<nat>)
    ensures r == Constant(text)
  {
    if text == [] || IsSpace(text[0]) || IsSpace(text[|text| - 1]) {
      return None;
    }
    var hex := HexPrefixed(text);
    var digits := if hex then text[2..] else text;
    if hex && (digits == [] || !UnderscoresSeparate(digits)) {
      return None;
    }
    var n := 0;
    for i := 0 to |digits|
      invariant n < 0x1_0000_0000
      invariant Positional(digits[..i], hex) == Some(n)
    {
      assert digits[..i + 1][..i] == digits[..i];
      var c := digits[i];
      if !(c == '_' && hex) {
        if DigitOf(c) >= Base(hex) {
          PositionalStops(digits, i + 1, hex);
          return None;
        }
        n := Shift(n, hex) + DigitOf(c);
        if n >= 0x1_0000_0000 {
          PositionalGrows(digits, i + 1, hex);
          return None;
        }
      }
    }
    assert digits[..|digits|] == digits;
    r := Some(n);
  }

  /** One bad character spoils the whole numeral. */
  lemma {:induction false} PositionalStops(text: string, k: nat, hex: bool)
    requires k <= |text| && Positional(text[..k], hex).None?
    ensures Positional(text, hex).None?
    decreases |text|
  {
    if k < |text| {
      var before := text[..|text| - 1];
      assert before[..k] == text[..k];
      PositionalStops(before, k, hex);
    } else {
      assert text[..k] == text;
    }
  }

  /** More digits never make a numeral smaller. */
  lemma {:induction false} PositionalGrows(text: string, k: nat, hex: bool)
    requires k <= |text|
    ensures var part, all := Positional(text[..k], hex), Positional(text, hex);
      part.Some? && all.Some? ==> part.value <= all.value
    decreases |text|
  {
    if k < |text| {
      var before := text[..|text| - 1];
      assert before[..k] == text[..k];
      PositionalGrows(before, k, hex);
    } else {
      assert text[..k] == text;
    }
  }

  method ReadConstant(v: Json) returns (r: Option<bv32>)
    ensures r == ConstantOf(v)
  {
    match v
    case Number(t) => var c := ParseConstant(t); r := if c.None? then None else Some(Word(c.value));
    case Text(t) => var c := ParseConstant(t); r := if c.None? then None else Some(Word(c.value));
    case _ => r := None;
  }

  class Scanner {
    var nodes: nat

    constructor ()
      ensures nodes == 0
    {
      nodes := 0;
    }

    /**
     Within the limits the answer is the verdict; a limit is the only other answer, and a value that
     fits never meets one.
     */
    method Inspect(v: Json, depth: nat) returns (r: Verdict)
      modifies this
      ensures Limited(r) || r == VerdictOf(v)
      ensures old(nodes) < nodes <= old(nodes) + Nodes(v)
      ensures Fits(old(nodes), depth, Nodes(v), Height(v)) ==> !Limited(r)
      decreases v, 0
    {
      nodes := nodes + 1;
      if nodes > MAX_NODES {
        return Malformed(TooManyNodes);
      }
      if depth > MAX_DEPTH {
        return Malformed(TooDeep);
      }
      match v
      case Array(items) => r := InspectAll(items, depth + 1);
      case Object(fields) =>
        if |fields| == 1 && fields[0].key == "&" {
          FieldWithin(fields, 0, 0);
          r := InspectAnd(fields[0].value, depth + 1);
        } else if Has(fields, "xt") {
          r := Collides(OpaqueXt);
        } else {
          var d := MarkDescriptor(fields);
          match d
          case Broken(f) => r := Malformed(f);
          case Mark(body) => r := Collides(if Has(body, "set") then WritesMark else ReadsUnmasked);
          case NotMark => r := InspectObject(fields, depth + 1);
        }
      case _ => r := Clean;
    }

    /** The children of an array, or the operands of a mask, in order. */
    method InspectAll(vs: seq<Json>, depth: nat) returns (first: Verdict)
      modifies this
      ensures Limited(first) || first == VerdictFrom(vs, 0)
      ensures old(nodes) <= nodes <= old(nodes) + NodesFrom(vs, 0)
      ensures Fits(old(nodes), depth, NodesFrom(vs, 0), HeightFrom(vs, 0)) ==> !Limited(first)
      decreases vs, 0
    {
      first := Clean;
      for i := 0 to |vs|
        invariant !first.Malformed?
        invariant Combine(first, VerdictFrom(vs, i)) == VerdictFrom(vs, 0)
        invariant old(nodes) <= nodes && nodes + NodesFrom(vs, i) <= old(nodes) + NodesFrom(vs, 0)
        invariant HeightFrom(vs, i) <= HeightFrom(vs, 0)
      {
        var reason := Inspect(vs[i], depth);
        if reason.Malformed? {
          return reason;
        }
        if first.Clean? {
          first := reason;
        }
      }
    }

    /** The fields of an object in key order; a mangle statement has its own rule. */
    method InspectObject(fields: seq<Field>, depth: nat) returns (first: Verdict)
      modifies this
      ensures Limited(first) || first == VerdictOfFields(fields, 0)
      ensures old(nodes) <= nodes <= old(nodes) + NodesOfFields(fields, 0)
      ensures Fits(old(nodes), depth, NodesOfFields(fields, 0), HeightOfFields(fields, 0)) ==> !Limited(first)
      decreases fields, 0
    {
      first := Clean;
      for i := 0 to |fields|
        invariant !first.Malformed?
        invariant Combine(first, VerdictOfFields(fields, i)) == VerdictOfFields(fields, 0)
        invariant old(nodes) <= nodes && nodes + NodesOfFields(fields, i) <= old(nodes) + NodesOfFields(fields, 0)
        invariant HeightOfFields(fields, i) <= HeightOfFields(fields, 0)
      {
        var reason: Verdict;
        if fields[i].key == "mangle" {
          reason := InspectMangle(fields[i].value, depth);
        } else {
          reason := Inspect(fields[i].value, depth);
        }
        if reason.Malformed? {
          return reason;
        }
        if first.Clean? {
          first := reason;
        }
      }
    }

    method InspectMangle(v: Json, depth: nat) returns (r: Verdict)
      modifies this
      ensures Limited(r) || r == VerdictOfMangle(v)
      ensures old(nodes) <= nodes <= old(nodes) + Nodes(v)
      ensures Fits(old(nodes), depth, Nodes(v), Height(v)) ==> !Limited(r)
      decreases v, 1
    {
      if !v.Object? {
        return Malformed(MangleNotObject);
      }
      var i, j := IndexOf(v.fields, "key"), IndexOf(v.fields, "value");
      if i == |v.fields| || j == |v.fields| || |v.fields| != 2 {
        return Malformed(MangleShape);
      }
      PairWithin(v.fields, i, j);
      var d := DescriptorOf(v.fields[i].value);
      match d {
        case Broken(f) => return Malformed(f);
        case Mark(_) => r := Collides(WritesMark);
        case NotMark => r := Inspect(v.fields[i].value, depth + 1);
      }
      if r.Malformed? {
        return;
      }
      var reason := Inspect(v.fields[j].value, depth + 1);
      if reason.Malformed? || r.Clean? {
        r := reason;
      }
    }

    method InspectAnd(body: Json, depth: nat) returns (r: Verdict)
      modifies this
      ensures Limited(r) || r == VerdictOfAnd(body)
      ensures old(nodes) <= nodes <= old(nodes) + Nodes(body)
      ensures Fits(old(nodes), depth, Nodes(body), (if Masking(body) then 0 else 1) + Height(body)) ==> !Limited(r)
      decreases body, 1
    {
      if !Masking(body) {
        r := Inspect(body, depth + 1);
        return;
      }
      var operands := body.items;
      var read: Option<nat> := None;
      for i := 0 to |operands|
        invariant FindRead(operands, i, read) == FindRead(operands, 0, None)
        invariant nodes == old(nodes)
      {
        if BrokenRead(operands[i]) {
          return Malformed(MarkDescriptor(operands[i].fields).fault);
        }
        if CanonicalRead(operands[i]) {
          if read.Some? {
            return Collides(MultipleReads);
          }
          read := Some(i);
        }
      }
      if read.Some? {
        r := CheckMasks(operands, read.value);
      } else {
        r := InspectAll(operands, depth + 1);
      }
    }

    method CheckMasks(operands: seq<Json>, read: nat) returns (r: Verdict)
      ensures r == MasksFrom(operands, read, 0) && !r.Malformed?
    {
      for i := 0 to |operands|
        invariant MasksFrom(operands, read, i) == MasksFrom(operands, read, 0)
      {
        if i == read {
          continue;
        }
        var mask := ReadConstant(operands[i]);
        if mask.None? {
          return Collides(UnverifiableMask);
        }
        if Reserved(mask.value) != 0 {
          return Collides(OverlappingMask);
        }
      }
      r := Clean;
    }
  }

  // ---- The audit of a whole ruleset ----

  datatype Rule = Rule(family: string, table: string, expressions: seq<Json>)

  predicate Foreign(r: Rule, owned: set<(string, string)>) {
    (r.family, r.table) !in owned
  }

  predicate CleanRule(r: Rule) {
    VerdictOf(Array(r.expressions)).Clean?
  }

  predicate CollidingRule(r: Rule, owned: set<(string, string)>) {
    Foreign(r, owned) && VerdictOf(Array(r.expressions)).Collides?
  }

  datatype Tally = Tally(foreign: nat, ignored: nat, colliding: nat, first: Option<nat>)

  function ForeignIn(rules: seq<Rule>, owned: set<(string, string)>): set<nat> {
    set i | 0 <= i < |rules| && Foreign(rules[i], owned) :: i
  }

  function CollidingIn(rules: seq<Rule>, owned: set<(string, string)>): set<nat> {
    set i | 0 <= i < |rules| && CollidingRule(rules[i], owned) :: i
  }

  /** The counts of a finished audit, and the first colliding rule. */
  predicate Counts(t: Tally, rules: seq<Rule>, owned: set<(string, string)>) {
    && t.foreign == |ForeignIn(rules, owned)|
    && t.foreign + t.ignored == |rules|
    && t.colliding == |CollidingIn(rules, owned)|
    && (t.first.None? <==> t.colliding == 0)
    && (t.first.Some? ==>
      && t.first.value in CollidingIn(rules, owned)
      && forall i :: i in CollidingIn(rules, owned) ==> t.first.value <= i)
  }

  predicate NoFault(rules: seq<Rule>, owned: set<(string, string)>) {
    forall i :: 0 <= i < |rules| ==> Foreign(rules[i], owned) ==> !VerdictOf(Array(rules[i].expressions)).Malformed?
  }

  lemma SetsGrow(rules: seq<Rule>, owned: set<(string, string)>, i: nat)
    requires i < |rules|
    ensures ForeignIn(rules[..i + 1], owned) == ForeignIn(rules[..i], owned) + if Foreign(rules[i], owned) then {i} else {}
    ensures CollidingIn(rules[..i + 1], owned) == CollidingIn(rules[..i], owned) + if CollidingRule(rules[i], owned) then {i} else {}
  {
    assert forall k :: 0 <= k < i ==> rules[..i + 1][k] == rules[..i][k] == rules[k];
    assert rules[..i + 1][i] == rules[i];
  }

  /** The tally with one more rule, at position i. */
  function Tallied(t: Tally, r: Rule, owned: set<(string, string)>, i: nat): Tally {
    if !Foreign(r, owned) then t.(ignored := t.ignored + 1)
    else if VerdictOf(Array(r.expressions)).Collides? then
      t.(foreign := t.foreign + 1, colliding := t.colliding + 1, first := if t.first.None? then Some(i) else t.first)
    else t.(foreign := t.foreign + 1)
  }

  lemma PrefixBelow(rules: seq<Rule>, owned: set<(string, string)>, i: nat)
    requires i < |rules|
    ensures forall k :: k in ForeignIn(rules[..i], owned) ==> k < i
    ensures forall k :: k in CollidingIn(rules[..i], owned) ==> k < i
    ensures |ForeignIn(rules[..i], owned) + {i}| == |ForeignIn(rules[..i], owned)| + 1
    ensures |CollidingIn(rules[..i], owned) + {i}| == |CollidingIn(rules[..i], owned)| + 1
  {
    hide VerdictOf, Foreign, CollidingRule;
    assert i !in ForeignIn(rules[..i], owned) && i !in CollidingIn(rules[..i], owned);
  }

  lemma CountsNext(t: Tally, rules: seq<Rule>, owned: set<(string, string)>, i: nat)
    requires i < |rules| && Counts(t, rules[..i], owned)
    ensures Counts(Tallied(t, rules[i], owned, i), rules[..i + 1], owned)
  {
    SetsGrow(rules, owned, i);
    PrefixBelow(rules, owned, i);
    assert CollidingRule(rules[i], owned) <==> Foreign(rules[i], owned) && VerdictOf(Array(rules[i].expressions)).Collides?;
    hide VerdictOf, Foreign, CollidingRule, ForeignIn, CollidingIn;
    assert |rules[..i + 1]| == |rules[..i]| + 1;
    if t.first.None? {
      assert CollidingIn(rules[..i], owned) == {};
    }
  }

  /** Scans every foreign rule with one shared node budget; the first fault ends the audit. */
  method Audit(rules: seq<Rule>, owned: set<(string, string)>) returns (t: Tally, fault: Option<Fault>)
    ensures fault.None? ==> Counts(t, rules, owned) && NoFault(rules, owned)
    ensures fault.Some? && !Limited(Malformed(fault.value)) ==> !NoFault(rules, owned)
  {
    hide Counts, VerdictOf;
    var scanner := new Scanner();
    t, fault := Tally(0, 0, 0, None), None;
    CountsNone(rules, owned);
    for i := 0 to |rules|
      invariant fresh(scanner) && fault.None?
      invariant Counts(t, rules[..i], owned)
      invariant forall k :: 0 <= k < i ==> Foreign(rules[k], owned) ==> !VerdictOf(Array(rules[k].expressions)).Malformed?
    {
      CountsNext(t, rules, owned, i);
      if !Foreign(rules[i], owned) {
        t := t.(ignored := t.ignored + 1);
      } else {
        var verdict := scanner.Inspect(Array(rules[i].expressions), 0);
        if verdict.Malformed? {
          assert Limited(verdict) || VerdictOf(Array(rules[i].expressions)).Malformed?;
          return t, Some(verdict.fault);
        }
        t := t.(foreign := t.foreign + 1);
        if verdict.Collides? {
          t := t.(colliding := t.colliding + 1, first := if t.first.None? then Some(i) else t.first);
        }
      }
    }
    assert rules[..|rules|] == rules;
  }

  lemma CountsNone(rules: seq<Rule>, owned: set<(string, string)>)
    ensures Counts(Tally(0, 0, 0, None), rules[..0], owned)
  {
    assert ForeignIn(rules[..0], owned) == {} && CollidingIn(rules[..0], owned) == {};
  }

  /** The audit passes exactly the rulesets whose every foreign rule is clean, unless a limit stops it. */
  method Passes(rules: seq<Rule>, owned: set<(string, string)>) returns (ok: bool, limited: bool)
    ensures ok ==> !limited
    ensures !limited ==> (ok <==> forall i :: 0 <= i < |rules| && Foreign(rules[i], owned) ==> CleanRule(rules[i]))
  {
    var t, fault := Audit(rules, owned);
    ok := fault.None? && t.colliding == 0;
    limited := fault.Some? && Limited(Malformed(fault.value));
    if fault.None? {
      if t.colliding == 0 {
        assert CollidingIn(rules, owned) == {};
        forall i | 0 <= i < |rules| && Foreign(rules[i], owned) ensures CleanRule(rules[i]) {
          assert i !in CollidingIn(rules, owned);
        }
      } else {
        assert !CleanRule(rules[t.first.value]);
      }
    }
  }
}
