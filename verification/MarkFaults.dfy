/**
 Which ill-formed expressions the scanner reports. It stops looking at an opaque statement, at a mark
 descriptor and at a mask with a bare read in it, so a fault is reported exactly when a path of scanned
 places leads to it.
 */
module MarkFaults {
  import opened Wrappers
  import opened MarkScan

  /** A value in the place where the scan comes to it; an operand is only looked at for being a bare read. */
  datatype Spot = Expression(v: Json) | Mangled(v: Json) | Target(v: Json) | Operand(v: Json)

  predicate IsMask(fields: seq<Field>) {
    |fields| == 1 && fields[0].key == "&"
  }

  predicate PairOf(v: Json) {
    v.Object? && |v.fields| == 2 && Has(v.fields, "key") && Has(v.fields, "value")
  }

  /** The bare reads among the first n operands. */
  function BareReads(operands: seq<Json>, n: nat): nat
    requires n <= |operands|
  {
    if n == 0 then 0 else BareReads(operands, n - 1) + if CanonicalRead(operands[n - 1]) then 1 else 0
  }

  /** What is wrong with a value by itself, in its place. */
  predicate IllFormed(s: Spot) {
    match s
    case Expression(v) => v.Object? && !IsMask(v.fields) && !Has(v.fields, "xt") && MarkDescriptor(v.fields).Broken?
    case Mangled(v) => !PairOf(v)
    case Target(v) => DescriptorOf(v).Broken?
    case Operand(v) => BrokenRead(v)
  }

  /** The operands of a mask: read as expressions, unless one is a bare read; a second one ends the look. */
  function MaskChild(body: Json, i: nat): Option<Spot> {
    if !Masking(body) then if i == 0 then Some(Expression(body)) else None
    else if i >= |body.items| then None
    else if BareReads(body.items, |body.items|) == 0 then Some(Expression(body.items[i]))
    else if BareReads(body.items, i) < 2 then Some(Operand(body.items[i]))
    else None
  }

  /** The i-th place the scan goes on to from here, if it does. */
  function Child(s: Spot, i: nat): Option<Spot> {
    match s
    case Expression(v) =>
      (match v
       case Array(items) => if i < |items| then Some(Expression(items[i])) else None
       case Object(fields) =>
         if IsMask(fields) then MaskChild(fields[0].value, i)
         else if Has(fields, "xt") || !MarkDescriptor(fields).NotMark? || i >= |fields| then None
         else if fields[i].key == "mangle" then Some(Mangled(fields[i].value))
         else Some(Expression(fields[i].value))
       case _ => None)
    case Mangled(v) =>
      if !PairOf(v) then None
      else if i == 0 then Some(Target(v.fields[IndexOf(v.fields, "key")].value))
      else if i == 1 then Some(Expression(v.fields[IndexOf(v.fields, "value")].value))
      else None
    case Target(v) => if DescriptorOf(v).NotMark? && i == 0 then Some(Expression(v)) else None
    case Operand(_) => None
  }

  /** Where a path of scanned places leads. */
  function SpotAt(s: Spot, path: seq<nat>): Option<Spot>
    decreases |path|
  {
    if path == [] then Some(s)
    else
      match Child(s, path[0])
      case None => None
      case Some(c) => SpotAt(c, path[1..])
  }

  predicate FaultAt(s: Spot, path: seq<nat>) {
    SpotAt(s, path).Some? && IllFormed(SpotAt(s, path).value)
  }

  // ---- One step of the scan ----

  predicate Faulty(s: Spot) {
    match s
    case Expression(v) => VerdictOf(v).Malformed?
    case Mangled(v) => VerdictOfMangle(v).Malformed?
    case Target(v) => VerdictOfTarget(v).Malformed?
    case Operand(v) => BrokenRead(v)
  }

  predicate FaultyChild(s: Spot, i: nat) {
    Child(s, i).Some? && Faulty(Child(s, i).value)
  }

  /** In an array a fault anywhere is reported, and cleanliness means every element is clean. */
  lemma {:induction false} ArrayVerdict(vs: seq<Json>, i: nat)
    requires i <= |vs|
    ensures VerdictFrom(vs, i).Malformed? <==> exists k :: i <= k < |vs| && VerdictOf(vs[k]).Malformed?
    ensures VerdictFrom(vs, i).Clean? <==> forall k :: i <= k < |vs| ==> VerdictOf(vs[k]).Clean?
    decreases |vs| - i
  {
    if i < |vs| {
      ArrayVerdict(vs, i + 1);
    }
  }

  lemma {:induction false} FieldsVerdict(fields: seq<Field>, i: nat)
    requires i <= |fields|
    ensures VerdictOfFields(fields, i).Malformed? <==> exists k :: i <= k < |fields| && VerdictOfField(fields[k]).Malformed?
    decreases |fields| - i
  {
    hide VerdictOfField;
    if i < |fields| {
      FieldsVerdict(fields, i + 1);
    }
  }

  lemma ReadsGrow(operands: seq<Json>, i: nat, k: nat)
    requires i <= k <= |operands|
    ensures BareReads(operands, i) <= BareReads(operands, k)
    decreases k - i
  {
    if i < k {
      ReadsGrow(operands, i, k - 1);
    }
  }

  /** The search for the one bare read meets a broken one exactly where fewer than two reads stand before it. */
  lemma {:induction false} SearchIsFaulty(operands: seq<Json>, i: nat, found: Option<nat>)
    requires i <= |operands| && BareReads(operands, i) == if found.Some? then 1 else 0
    ensures FindRead(operands, i, found).Faulty? <==>
      exists k :: i <= k < |operands| && BrokenRead(operands[k]) && BareReads(operands, k) < 2
    ensures FindRead(operands, i, found).Nowhere? ==> BareReads(operands, |operands|) == 0
    ensures BareReads(operands, |operands|) == 0 ==> FindRead(operands, i, found).Nowhere? || FindRead(operands, i, found).Faulty?
    decreases |operands| - i
  {
    hide CanonicalRead, BrokenRead;
    if i < |operands| {
      ReadsGrow(operands, i + 1, |operands|);
      NeitherBoth(operands[i]);
      if BrokenRead(operands[i]) {
        assert BareReads(operands, i) < 2;
      } else if CanonicalRead(operands[i]) {
        if found.None? {
          SearchIsFaulty(operands, i + 1, Some(i));
        } else {
          forall k | i < k < |operands| ensures BareReads(operands, k) >= 2 {
            ReadsGrow(operands, i + 1, k);
          }
        }
      } else {
        SearchIsFaulty(operands, i + 1, found);
      }
    }
  }

  lemma NeitherBoth(v: Json)
    ensures !(BrokenRead(v) && CanonicalRead(v))
  {
  }

  lemma {:induction false} MasksAreNoFault(operands: seq<Json>, read: nat, i: nat)
    ensures !MasksFrom(operands, read, i).Malformed?
    decreases |operands| - i
  {
    hide ConstantOf;
    if i < |operands| {
      MasksAreNoFault(operands, read, i + 1);
    }
  }

  lemma BrokenReadIsFaulty(v: Json)
    requires BrokenRead(v)
    ensures VerdictOf(v).Malformed?
  {
  }

  lemma MaskStep(body: Json)
    ensures VerdictOfAnd(body).Malformed? <==>
      exists i :: MaskChild(body, i).Some? && Faulty(MaskChild(body, i).value)
  {
    if !Masking(body) {
      assert MaskChild(body, 0) == Some(Expression(body));
    } else {
      MaskedStep(body.items);
      var n := |body.items|;
      hide VerdictOf, BrokenRead, BareReads, VerdictOfAnd;
      assert forall i: nat :: i < n ==>
        MaskChild(body, i) == if BareReads(body.items, n) == 0 then Some(Expression(body.items[i]))
          else if BareReads(body.items, i) < 2 then Some(Operand(body.items[i])) else None;
      assert forall i: nat :: i >= n ==> MaskChild(body, i).None?;
      if BareReads(body.items, n) == 0 {
        if VerdictOfAnd(body).Malformed? {
          var k :| 0 <= k < n && VerdictOf(body.items[k]).Malformed?;
          assert MaskChild(body, k) == Some(Expression(body.items[k]));
        }
      } else if VerdictOfAnd(body).Malformed? {
        var k :| 0 <= k < n && BrokenRead(body.items[k]) && BareReads(body.items, k) < 2;
        assert MaskChild(body, k) == Some(Operand(body.items[k]));
      }
    }
  }

  lemma MaskedStep(operands: seq<Json>)
    requires |operands| >= 2
    ensures VerdictOfAnd(Array(operands)).Malformed? <==>
      if BareReads(operands, |operands|) == 0 then exists k :: 0 <= k < |operands| && VerdictOf(operands[k]).Malformed?
      else exists k :: 0 <= k < |operands| && BrokenRead(operands[k]) && BareReads(operands, k) < 2
  {
    SearchIsFaulty(operands, 0, None);
    ArrayVerdict(operands, 0);
    hide BrokenRead, VerdictOf, VerdictFrom, MasksFrom, BareReads;
    match FindRead(operands, 0, None)
    case Faulty(_) =>
      var k :| 0 <= k < |operands| && BrokenRead(operands[k]) && BareReads(operands, k) < 2;
      BrokenReadIsFaulty(operands[k]);
    case At(k) => MasksAreNoFault(operands, k, 0);
    case Nowhere =>
    case Twice =>
  }

  lemma FieldsStep(fields: seq<Field>)
    requires !IsMask(fields) && !Has(fields, "xt") && MarkDescriptor(fields).NotMark?
    ensures VerdictOf(Object(fields)).Malformed? <==> exists i :: FaultyChild(Expression(Object(fields)), i)
  {
    FieldsVerdict(fields, 0);
    hide VerdictOfMangle, Has, MarkDescriptor, VerdictOfFields;
    var s := Expression(Object(fields));
    forall i: nat ensures FaultyChild(s, i) <==> i < |fields| && VerdictOfField(fields[i]).Malformed? {
    }
    hide FaultyChild, VerdictOfField;
    if VerdictOf(Object(fields)).Malformed? {
      var k :| 0 <= k < |fields| && VerdictOfField(fields[k]).Malformed?;
      assert FaultyChild(s, k);
    }
  }

  lemma ArrayStep(items: seq<Json>)
    ensures VerdictOf(Array(items)).Malformed? <==> exists i :: FaultyChild(Expression(Array(items)), i)
  {
    ArrayVerdict(items, 0);
    var s := Expression(Array(items));
    hide VerdictFrom;
    forall i: nat ensures FaultyChild(s, i) <==> i < |items| && VerdictOf(items[i]).Malformed? {
    }
    hide FaultyChild;
    assert VerdictOf(Array(items)) == VerdictFrom(items, 0);
    hide VerdictOf;
    if VerdictOf(Array(items)).Malformed? {
      var k :| 0 <= k < |items| && VerdictOf(items[k]).Malformed?;
      assert FaultyChild(s, k);
    }
  }

  /** A place is faulty exactly when it is ill formed itself or a place the scan goes on to is. */
  lemma Step(s: Spot)
    ensures Faulty(s) <==> IllFormed(s) || exists i :: FaultyChild(s, i)
  {
    match s
    case Expression(v) => ExpressionStep(v);
    case Mangled(v) => MangledStep(v);
    case Target(v) =>
      if DescriptorOf(v).NotMark? {
        assert FaultyChild(s, 0) <==> VerdictOf(v).Malformed?;
      }
    case Operand(_) =>
  }

  lemma MangledStep(v: Json)
    ensures Faulty(Mangled(v)) <==> IllFormed(Mangled(v)) || exists i :: FaultyChild(Mangled(v), i)
  {
    hide VerdictOf, VerdictOfTarget;
    var s := Mangled(v);
    if PairOf(v) {
      assert FaultyChild(s, 0) <==> VerdictOfTarget(v.fields[IndexOf(v.fields, "key")].value).Malformed?;
      assert FaultyChild(s, 1) <==> VerdictOf(v.fields[IndexOf(v.fields, "value")].value).Malformed?;
    }
  }

  lemma ExpressionStep(v: Json)
    ensures Faulty(Expression(v)) <==> IllFormed(Expression(v)) || exists i :: FaultyChild(Expression(v), i)
  {
    match v
    case Array(items) => ArrayStep(items);
    case Object(fields) =>
      if IsMask(fields) {
        MaskStep(fields[0].value);
        var s, body := Expression(v), fields[0].value;
        hide VerdictOfAnd, MaskChild;
        forall i: nat ensures FaultyChild(s, i) <==> MaskChild(body, i).Some? && Faulty(MaskChild(body, i).value) {
        }
      } else if !Has(fields, "xt") && MarkDescriptor(fields).NotMark? {
        FieldsStep(fields);
      }
    case _ =>
  }

  // ---- Whole paths ----

  /** How much there is below a place. */
  function Rank(s: Spot): nat {
    2 * Nodes(s.v) + if s.Target? then 1 else 0
  }

  lemma {:induction false} ItemWithin(vs: seq<Json>, i: nat, k: nat)
    requires i <= k < |vs|
    ensures Nodes(vs[k]) <= NodesFrom(vs, i)
    decreases k - i
  {
    if i < k {
      ItemWithin(vs, i + 1, k);
    }
  }

  lemma ChildIsLess(s: Spot, i: nat)
    requires Child(s, i).Some?
    ensures Rank(Child(s, i).value) < Rank(s)
  {
    match s
    case Expression(v) => PartIsLess(v, i);
    case Mangled(v) => FieldWithin(v.fields, 0, IndexOf(v.fields, if i == 0 then "key" else "value"));
    case Target(_) =>
    case Operand(_) =>
  }

  lemma PartIsLess(v: Json, i: nat)
    requires Child(Expression(v), i).Some?
    ensures Rank(Child(Expression(v), i).value) < Rank(Expression(v))
  {
    match v
    case Array(items) => ItemWithin(items, 0, i);
    case Object(fields) =>
      if !IsMask(fields) {
        FieldWithin(fields, 0, i);
      } else {
        FieldWithin(fields, 0, 0);
        if Masking(fields[0].value) {
          ItemWithin(fields[0].value.items, 0, i);
        }
      }
    case _ =>
  }

  lemma {:induction false} FaultIsSeen(s: Spot, path: seq<nat>)
    requires FaultAt(s, path)
    ensures Faulty(s)
    decreases |path|
  {
    Step(s);
    hide Faulty, IllFormed, Child;
    if path != [] {
      FaultIsSeen(Child(s, path[0]).value, path[1..]);
      assert FaultyChild(s, path[0]);
    }
  }

  lemma {:induction false} SeenFaultIsThere(s: Spot) returns (path: seq<nat>)
    requires Faulty(s)
    ensures FaultAt(s, path)
    decreases Rank(s)
  {
    Step(s);
    hide Faulty, IllFormed, Child, Rank;
    if IllFormed(s) {
      path := [];
    } else {
      var i :| FaultyChild(s, i);
      ChildIsLess(s, i);
      var below := SeenFaultIsThere(Child(s, i).value);
      path := [i] + below;
      assert path[1..] == below;
    }
  }

  /** An expression is reported as malformed exactly when the scan comes to something ill formed in it. */
  lemma ReportedExactly(v: Json)
    ensures VerdictOf(v).Malformed? <==> exists path :: FaultAt(Expression(v), path)
  {
    if VerdictOf(v).Malformed? {
      var path := SeenFaultIsThere(Expression(v));
    }
    forall path | FaultAt(Expression(v), path) ensures VerdictOf(v).Malformed? {
      FaultIsSeen(Expression(v), path);
    }
  }

  // ---- What goes unreported ----

  function BareRead(): Json {
    Object([Field("ct", Object([Field("key", Text("mark"))]))])
  }

  lemma BareReadIsBare()
    ensures CanonicalRead(BareRead()) && !BrokenRead(BareRead())
  {
    var body := [Field("key", Text("mark"))];
    assert IndexOf(body, "key") == 0;
    assert IndexOf([Field("ct", Object(body))], "ct") == 0;
  }

  /**
   The inputs that show it: a fault beside a bare read in a mask, or beside an opaque statement, is in
   the expression and not in the verdict.
   */
  lemma FaultsGoUnreported(broken: Json)
    requires VerdictOf(broken).Malformed? && !BrokenRead(broken) && !CanonicalRead(broken) && ConstantOf(broken).None?
    ensures VerdictOf(Object([Field("&", Array([BareRead(), broken]))])) == Collides(UnverifiableMask)
    ensures VerdictOf(Object([Field("a", broken), Field("xt", Null)])) == Collides(OpaqueXt)
  {
    BareReadIsBare();
    var operands := [BareRead(), broken];
    hide CanonicalRead, BrokenRead, ConstantOf, BareRead;
    assert FindRead(operands, 2, Some(0)) == At(0);
    assert FindRead(operands, 1, Some(0)) == At(0);
    assert FindRead(operands, 0, None) == At(0);
    assert MasksFrom(operands, 0, 1) == Collides(UnverifiableMask);
    assert MasksFrom(operands, 0, 0) == Collides(UnverifiableMask);
    assert Masking(Array(operands));
    var two := [Field("a", broken), Field("xt", Null)];
    assert two[1..] == [Field("xt", Null)];
    assert IndexOf(two[1..], "xt") == 0;
    assert IndexOf(two, "xt") == 1;
  }

  function IllShaped(): Json {
    Object([Field("mangle", Null), Field("z", Null)])
  }

  lemma IllShapedIsFaulty()
    ensures VerdictOf(IllShaped()).Malformed? && !BrokenRead(IllShaped()) && !CanonicalRead(IllShaped()) && ConstantOf(IllShaped()).None?
  {
    var fields := [Field("mangle", Null), Field("z", Null)];
    assert fields[1..] == [Field("z", Null)];
    assert IndexOf(fields[1..], "xt") == 1 && IndexOf(fields[1..], "ct") == 1;
    assert IndexOf(fields, "xt") == 2 && IndexOf(fields, "ct") == 2;
  }

  /** One such fault: reported alone, and not beside a bare read or an opaque statement. */
  lemma HiddenFault()
    ensures VerdictOf(IllShaped()).Malformed?
    ensures VerdictOf(Object([Field("&", Array([BareRead(), IllShaped()]))])) == Collides(UnverifiableMask)
    ensures VerdictOf(Object([Field("a", IllShaped()), Field("xt", Null)])) == Collides(OpaqueXt)
  {
    IllShapedIsFaulty();
    hide VerdictOf, BrokenRead, CanonicalRead, ConstantOf, IllShaped, BareRead;
    FaultsGoUnreported(IllShaped());
  }
}
