/**
 What a clean verdict means. Expressions are evaluated under an arbitrary interpretation of every
 operator but the three the scanner knows: reading or writing the conntrack mark, and bitwise and.
 A clean expression computes the same value, and has the same effect, under any two marks that agree
 outside the reserved byte, and never writes the mark.
 */
module MarkIndependence {
  import opened Wrappers
  import opened MarkBits
  import opened MarkScan

  datatype Value = Bits(bits: bv32) | Token(n: int)

  /** The connection's mark, and everything else an expression may read or write. */
  datatype State = State(mark: bv32, rest: int)

  /**
   An arbitrary meaning for everything the scanner does not know. Operators over evaluated children
   see the rest of the state but not the mark; opaque statements see and change everything.
   */
  datatype Interp = Interp(
    leaf: (Json, int) -> Value,
    list: (seq<Value>, int) -> Value,
    apply: (seq<string>, seq<Value>, int) -> (Value, int),
    assign: (Value, Value, int) -> (Value, int),
    unknown: (Json, State) -> (Value, State),
    next: seq<Value> -> Option<nat>)

  // ---- Evaluation ----

  function Eval(I: Interp, v: Json, s: State): (Value, State)
    decreases v, 2
  {
    match v
    case Array(items) =>
      var (vs, t) := EvalFrom(I, items, 0, s);
      (I.list(vs, t.rest), t)
    case Object(fields) =>
      if |fields| == 1 && fields[0].key == "&" then EvalAnd(I, fields[0].value, s)
      else if Has(fields, "xt") then I.unknown(v, s)
      else (match MarkDescriptor(fields)
        case Broken(_) => I.unknown(v, s)
        case Mark(body) => if Has(body, "set") then I.unknown(v, s) else (Bits(s.mark), s)
        case NotMark =>
          var (vs, t) := EvalFields(I, fields, 0, s);
          Stepped(I.apply(Keys(fields), vs, t.rest), t))
    case _ => (I.leaf(v, s.rest), s)
  }

  function Stepped(p: (Value, int), s: State): (Value, State) {
    (p.0, s.(rest := p.1))
  }

  function Keys(fields: seq<Field>): seq<string> {
    seq(|fields|, i requires 0 <= i < |fields| => fields[i].key)
  }

  /** The values of an array from i on, each evaluated in the state the one before left. */
  function EvalFrom(I: Interp, vs: seq<Json>, i: nat, s: State): (seq<Value>, State)
    decreases vs, |vs| - i
  {
    if i >= |vs| then ([], s)
    else
      var (x, t) := Eval(I, vs[i], s);
      var (xs, u) := EvalFrom(I, vs, i + 1, t);
      ([x] + xs, u)
  }

  function EvalFields(I: Interp, fields: seq<Field>, i: nat, s: State): (seq<Value>, State)
    decreases fields, |fields| - i
  {
    if i >= |fields| then ([], s)
    else
      var (x, t) := EvalField(I, fields[i], s);
      var (xs, u) := EvalFields(I, fields, i + 1, t);
      ([x] + xs, u)
  }

  function EvalField(I: Interp, f: Field, s: State): (Value, State)
    decreases f, 0
  {
    if f.key == "mangle" then EvalMangle(I, f.value, s) else Eval(I, f.value, s)
  }

  /** An assignment to the mark replaces it; an assignment to anything else cannot reach it. */
  function EvalMangle(I: Interp, v: Json, s: State): (Value, State)
    decreases v, 3
  {
    if !v.Object? then I.unknown(v, s)
    else
      var i, j := IndexOf(v.fields, "key"), IndexOf(v.fields, "value");
      if i == |v.fields| || j == |v.fields| || DescriptorOf(v.fields[i].value).Broken? then I.unknown(v, s)
      else if DescriptorOf(v.fields[i].value).Mark? then
        var (x, t) := Eval(I, v.fields[j].value, s);
        (x, if x.Bits? then t.(mark := x.bits) else I.unknown(v, t).1)
      else
        var (k, t) := Eval(I, v.fields[i].value, s);
        var (x, u) := Eval(I, v.fields[j].value, t);
        Stepped(I.assign(k, x, u.rest), u)
  }

  /** An operand of a mask: a constant stands for its bits. */
  function EvalOperand(I: Interp, v: Json, s: State): (Value, State)
    decreases v, 3
  {
    var c := ConstantOf(v);
    if c.Some? then (Bits(c.value), s) else Eval(I, v, s)
  }

  function EvalOperands(I: Interp, vs: seq<Json>, i: nat, s: State): (seq<Value>, State)
    decreases vs, |vs| - i
  {
    if i >= |vs| then ([], s)
    else
      var (x, t) := EvalOperand(I, vs[i], s);
      var (xs, u) := EvalOperands(I, vs, i + 1, t);
      ([x] + xs, u)
  }

  /** Bitwise and where every operand has bits; otherwise anything that ignores the mark. */
  function EvalAnd(I: Interp, body: Json, s: State): (Value, State)
    decreases body, 3
  {
    if !Masking(body) then
      var (x, t) := Eval(I, body, s);
      Stepped(I.apply(["&"], [x], t.rest), t)
    else
      var (vs, t) := EvalOperands(I, body.items, 0, s);
      if AllBits(vs) then (Bits(AndAll(vs)), t) else Stepped(I.apply(["&"], vs, t.rest), t)
  }

  predicate AllBits(vs: seq<Value>) {
    forall i :: 0 <= i < |vs| ==> vs[i].Bits?
  }

  function AndAll(vs: seq<Value>): bv32
    requires AllBits(vs)
  {
    if vs == [] then ONES else And(vs[0].bits, AndAll(vs[1..]))
  }

  // ---- Agreement ----

  /** The two states differ at most in the reserved byte of the mark. */
  predicate Agree(s: State, t: State) {
    s.rest == t.rest && Kept(s.mark) == Kept(t.mark)
  }

  /** Evaluated in s and in t: the same value, the same rest, and neither mark written. */
  predicate SameEffect(a: (Value, State), b: (Value, State), s: State, t: State) {
    && a.0 == b.0 && Agree(a.1, b.1)
    && a.1.mark == s.mark && b.1.mark == t.mark
  }

  predicate SameEffects(a: (seq<Value>, State), b: (seq<Value>, State), s: State, t: State) {
    && a.0 == b.0 && Agree(a.1, b.1)
    && a.1.mark == s.mark && b.1.mark == t.mark
  }

  /** The theorem: a clean expression does not depend on the reserved byte and does not write the mark. */
  lemma {:induction false} CleanIsIndependent(I: Interp, v: Json, s: State, t: State)
    requires VerdictOf(v).Clean? && Agree(s, t)
    ensures SameEffect(Eval(I, v, s), Eval(I, v, t), s, t)
    decreases v, 2
  {
    hide Kept, MarkDescriptor, EvalAnd, VerdictOfAnd, EvalFrom, EvalFields, VerdictOfFields, VerdictFrom;
    match v
    case Array(items) => IndependentFrom(I, items, 0, s, t);
    case Object(fields) =>
      if |fields| == 1 && fields[0].key == "&" {
        AndIsIndependent(I, fields[0].value, s, t);
      } else {
        IndependentFields(I, fields, 0, s, t);
      }
    case _ =>
  }

  lemma {:induction false} IndependentFrom(I: Interp, vs: seq<Json>, i: nat, s: State, t: State)
    requires VerdictFrom(vs, i).Clean? && Agree(s, t)
    ensures SameEffects(EvalFrom(I, vs, i, s), EvalFrom(I, vs, i, t), s, t)
    decreases vs, |vs| - i
  {
    if i < |vs| {
      CleanIsIndependent(I, vs[i], s, t);
      IndependentFrom(I, vs, i + 1, Eval(I, vs[i], s).1, Eval(I, vs[i], t).1);
    }
  }

  lemma {:induction false} IndependentFields(I: Interp, fields: seq<Field>, i: nat, s: State, t: State)
    requires VerdictOfFields(fields, i).Clean? && Agree(s, t)
    ensures SameEffects(EvalFields(I, fields, i, s), EvalFields(I, fields, i, t), s, t)
    decreases fields, |fields| - i
  {
    if i < |fields| {
      if fields[i].key == "mangle" {
        MangleIsIndependent(I, fields[i].value, s, t);
      } else {
        CleanIsIndependent(I, fields[i].value, s, t);
      }
      IndependentFields(I, fields, i + 1, EvalField(I, fields[i], s).1, EvalField(I, fields[i], t).1);
    }
  }

  lemma {:induction false} MangleIsIndependent(I: Interp, v: Json, s: State, t: State)
    requires VerdictOfMangle(v).Clean? && Agree(s, t)
    ensures SameEffect(EvalMangle(I, v, s), EvalMangle(I, v, t), s, t)
    decreases v, 3
  {
    var i, j := IndexOf(v.fields, "key"), IndexOf(v.fields, "value");
    var key, value := v.fields[i].value, v.fields[j].value;
    CleanIsIndependent(I, key, s, t);
    CleanIsIndependent(I, value, Eval(I, key, s).1, Eval(I, key, t).1);
  }

  lemma {:induction false} IndependentOperands(I: Interp, vs: seq<Json>, i: nat, s: State, t: State)
    requires VerdictFrom(vs, i).Clean? && Agree(s, t)
    ensures SameEffects(EvalOperands(I, vs, i, s), EvalOperands(I, vs, i, t), s, t)
    decreases vs, |vs| - i
  {
    if i < |vs| {
      CleanIsIndependent(I, vs[i], s, t);
      IndependentOperands(I, vs, i + 1, EvalOperand(I, vs[i], s).1, EvalOperand(I, vs[i], t).1);
    }
  }

  lemma {:induction false} AndIsIndependent(I: Interp, body: Json, s: State, t: State)
    requires VerdictOfAnd(body).Clean? && Agree(s, t)
    ensures SameEffect(EvalAnd(I, body, s), EvalAnd(I, body, t), s, t)
    decreases body, 3
  {
    if !Masking(body) {
      CleanIsIndependent(I, body, s, t);
    } else if FindRead(body.items, 0, None).At? {
      MaskedReadIsIndependent(I, body.items, s, t);
    } else {
      IndependentOperands(I, body.items, 0, s, t);
    }
  }

  // ---- The one exemption: a read under a mask clear of the reserved byte ----

  lemma {:induction false} FoundRead(vs: seq<Json>, i: nat, found: Option<nat>)
    requires i <= |vs| && FindRead(vs, i, found).At?
    requires found.Some? ==> found.value < i && CanonicalRead(vs[found.value])
    ensures var k := FindRead(vs, i, found).index; k < |vs| && CanonicalRead(vs[k])
    decreases |vs| - i
  {
    if i < |vs| {
      FoundRead(vs, i + 1, if CanonicalRead(vs[i]) then Some(i) else found);
    }
  }

  /** The value of operand v: the mark if it is the read, else a constant clear of the reserved byte. */
  predicate OperandIs(v: Json, x: Value, read: bool, s: State) {
    if read then x == Bits(s.mark)
    else ConstantOf(v).Some? && x == Bits(ConstantOf(v).value) && Reserved(x.bits) == 0
  }

  lemma {:induction false} OperandValues(I: Interp, vs: seq<Json>, k: nat, i: nat, s: State)
    requires i <= |vs| && k < |vs| && CanonicalRead(vs[k]) && MasksFrom(vs, k, i).Clean?
    ensures var (xs, u) := EvalOperands(I, vs, i, s);
      && u == s && |xs| == |vs| - i && AllBits(xs)
      && forall j :: 0 <= j < |xs| ==> OperandIs(vs[i + j], xs[j], i + j == k, s)
    decreases |vs| - i
  {
    hide Reserved, CanonicalRead, ConstantOf, Eval;
    if i < |vs| {
      OperandValues(I, vs, k, i + 1, s);
      if i == k {
        ReadEvaluates(I, vs[k], s);
      }
      var x, rest := EvalOperand(I, vs[i], s).0, EvalOperands(I, vs, i + 1, s).0;
      assert OperandIs(vs[i], x, i == k, s);
      var xs := EvalOperands(I, vs, i, s).0;
      assert xs == [x] + rest;
      forall j | 0 <= j < |xs| ensures OperandIs(vs[i + j], xs[j], i + j == k, s) {
        if j > 0 {
          assert OperandIs(vs[i + 1 + (j - 1)], rest[j - 1], i + 1 + (j - 1) == k, s);
        }
      }
    }
  }

  lemma ReadEvaluates(I: Interp, v: Json, s: State)
    requires CanonicalRead(v)
    ensures EvalOperand(I, v, s) == (Bits(s.mark), s)
  {
    var fields, body := v.fields, MarkDescriptor(v.fields).body;
    assert fields[0].key == "ct";
    assert !Has(body, "set");
  }

  lemma MaskedReadIsIndependent(I: Interp, vs: seq<Json>, s: State, t: State)
    requires |vs| >= 2 && FindRead(vs, 0, None).At? && MasksFrom(vs, FindRead(vs, 0, None).index, 0).Clean?
    requires Agree(s, t)
    ensures SameEffect(EvalAnd(I, Array(vs), s), EvalAnd(I, Array(vs), t), s, t)
  {
    hide And, Kept, Reserved, AndAll, MasksFrom, FindRead, EvalOperands, ConstantOf;
    var k := FindRead(vs, 0, None).index;
    FoundRead(vs, 0, None);
    OperandValues(I, vs, k, 0, s);
    OperandValues(I, vs, k, 0, t);
    var xs, ys := EvalOperands(I, vs, 0, s).0, EvalOperands(I, vs, 0, t).0;
    var j := if k == 0 then 1 else 0;
    assert OperandIs(vs[0 + j], xs[j], false, s);
    forall i | 0 <= i < |vs| ensures ys[i] == xs[k := Bits(t.mark)][i] {
      assert OperandIs(vs[0 + i], xs[i], 0 + i == k, s) && OperandIs(vs[0 + i], ys[i], 0 + i == k, t);
    }
    assert OperandIs(vs[0 + k], xs[k], true, s);
    assert ys == xs[k := Bits(t.mark)];
    AndHides(xs, k, j, s.mark, t.mark);
  }

  /** The conjunction is within each of its members. */
  lemma {:induction false} AndWithin(vs: seq<Value>, j: nat)
    requires AllBits(vs) && j < |vs|
    ensures And(AndAll(vs), vs[j].bits) == AndAll(vs)
  {
    hide And;
    if j > 0 {
      AndWithin(vs[1..], j - 1);
      assert vs[1..][j - 1] == vs[j];
      AndChain(vs[0].bits, AndAll(vs[1..]), vs[j].bits);
    } else {
      AndIsBitwise(vs[0].bits, AndAll(vs[1..]), ONES);
    }
  }

  /** A member can be taken out of the conjunction and put in front. */
  lemma {:induction false} AndReplace(vs: seq<Value>, k: nat, m: bv32)
    requires AllBits(vs) && k < |vs|
    ensures AllBits(vs[k := Bits(ONES)]) && AllBits(vs[k := Bits(m)])
    ensures AndAll(vs[k := Bits(m)]) == And(m, AndAll(vs[k := Bits(ONES)]))
  {
    hide And;
    var with, without := vs[k := Bits(m)], vs[k := Bits(ONES)];
    if k == 0 {
      assert with[1..] == vs[1..] == without[1..];
      AndIsBitwise(m, AndAll(vs[1..]), ONES);
    } else {
      AndReplace(vs[1..], k - 1, m);
      assert with[1..] == vs[1..][k - 1 := Bits(m)];
      assert without[1..] == vs[1..][k - 1 := Bits(ONES)];
      AndIsBitwise(vs[0].bits, m, AndAll(without[1..]));
    }
  }

  lemma AndHides(vs: seq<Value>, k: nat, j: nat, m: bv32, n: bv32)
    requires AllBits(vs) && k < |vs| && j < |vs| && j != k
    requires vs[k] == Bits(m) && Reserved(vs[j].bits) == 0 && Kept(m) == Kept(n)
    ensures AllBits(vs[k := Bits(n)]) && AndAll(vs) == AndAll(vs[k := Bits(n)])
  {
    hide And, Kept, Reserved, AndAll;
    var without := vs[k := Bits(ONES)];
    AndReplace(vs, k, m);
    AndReplace(vs, k, n);
    assert vs[k := Bits(m)] == vs;
    AndWithin(without, j);
    MaskedSame(m, n, AndAll(without), vs[j].bits);
  }

  // ---- Whole rulesets ----

  /** What the kernel computes on its way through the rules: each next rule may depend on all values so far. */
  function Walk(I: Interp, rules: seq<Rule>, owned: set<(string, string)>, seen: seq<Value>, s: State, steps: nat): (seq<Value>, State)
    decreases steps
  {
    var n := I.next(seen);
    if steps == 0 || n.None? || n.value >= |rules| || !Foreign(rules[n.value], owned) then (seen, s)
    else
      var (x, t) := Eval(I, Array(rules[n.value].expressions), s);
      Walk(I, rules, owned, seen + [x], t, steps - 1)
  }

  /**
   In a ruleset that passes the audit, no walk through foreign rules, of any length, along any path,
   can tell apart two marks that differ in the reserved byte, and none writes the mark.
   */
  lemma {:induction false} ForeignRulesAreIndependent(
    I: Interp, rules: seq<Rule>, owned: set<(string, string)>, seen: seq<Value>, s: State, t: State, steps: nat)
    requires forall i :: 0 <= i < |rules| && Foreign(rules[i], owned) ==> CleanRule(rules[i])
    requires Agree(s, t)
    ensures SameEffects(Walk(I, rules, owned, seen, s, steps), Walk(I, rules, owned, seen, t, steps), s, t)
    decreases steps
  {
    hide Kept, Eval, VerdictOf;
    var n := I.next(seen);
    if steps > 0 && n.Some? && n.value < |rules| && Foreign(rules[n.value], owned) {
      var body := Array(rules[n.value].expressions);
      assert CleanRule(rules[n.value]);
      CleanIsIndependent(I, body, s, t);
      var (x, u) := Eval(I, body, s);
      ForeignRulesAreIndependent(I, rules, owned, seen + [x], u, Eval(I, body, t).1, steps - 1);
    }
  }
}
