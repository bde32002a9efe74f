/** Identities: an interface's stable name and the byte its connections are marked with. */
module ProvenanceIds {
  const MIN_ID: bv8 := 1
  const MAX_ID: bv8 := 254
  const MAX_ACTIVE: nat := 64

  datatype Assignment = Assignment(name: string, id: bv8, retired: bool)

  predicate Letter(c: char) {
    'a' <= c <= 'z' || 'A' <= c <= 'Z'
  }

  predicate Digit(c: char) {
    '0' <= c <= '9'
  }

  predicate IdentityOk(name: string) {
    && 1 <= |name| <= 128
    && (Letter(name[0]) || Digit(name[0]))
    && forall i :: 1 <= i < |name| ==> Letter(name[i]) || Digit(name[i]) || name[i] in "_.:-"
  }

  predicate AssignmentOk(a: Assignment) {
    !a.retired && IdentityOk(a.name) && MIN_ID <= a.id <= MAX_ID
  }

  predicate Distinct(xs: seq<Assignment>) {
    forall i, j :: 0 <= i < j < |xs| ==> xs[i].name != xs[j].name && xs[i].id != xs[j].id
  }

  /** The contract of an active set: bounded, well formed, and one-to-one in both directions. */
  predicate ActiveOk(xs: seq<Assignment>) {
    && 0 < |xs| <= MAX_ACTIVE
    && (forall i :: 0 <= i < |xs| ==> AssignmentOk(xs[i]))
    && Distinct(xs)
  }

  function NamesOf(xs: seq<Assignment>): set<string> {
    set i | 0 <= i < |xs| :: xs[i].name
  }

  function IdsOf(xs: seq<Assignment>): set<bv8> {
    set i | 0 <= i < |xs| :: xs[i].id
  }

  lemma OneMore(xs: seq<Assignment>, i: nat)
    requires i < |xs|
    ensures NamesOf(xs[..i + 1]) == NamesOf(xs[..i]) + {xs[i].name}
    ensures IdsOf(xs[..i + 1]) == IdsOf(xs[..i]) + {xs[i].id}
  {
    assert xs[..i + 1] == xs[..i] + [xs[i]];
    assert forall k :: 0 <= k < i ==> xs[..i + 1][k] == xs[..i][k];
    assert xs[..i + 1][i] == xs[i];
  }

  /** A letter or digit, then letters, digits and four separators. */
  method CheckIdentity(name: string) returns (ok: bool)
    ensures ok <==> IdentityOk(name)
  {
    if name == "" || |name| > 128 {
      return false;
    }
    for i := 0 to |name|
      invariant forall k :: 0 <= k < i ==> Letter(name[k]) || Digit(name[k]) || (k > 0 && name[k] in "_.:-")
    {
      var c := name[i];
      var plain := 'a' <= c <= 'z' || 'A' <= c <= 'Z' || '0' <= c <= '9';
      if !plain && (i == 0 || (c != '_' && c != '.' && c != ':' && c != '-')) {
        return false;
      }
    }
    ok := true;
  }

  method ValidateActive(xs: seq<Assignment>) returns (ok: bool)
    ensures ok <==> ActiveOk(xs)
  {
    if |xs| == 0 || |xs| > 64 {
      return false;
    }
    var names: set<string> := {};
    var ids: set<bv8> := {};
    for i := 0 to |xs|
      invariant names == NamesOf(xs[..i]) && ids == IdsOf(xs[..i])
      invariant forall k :: 0 <= k < i ==> AssignmentOk(xs[k])
      invariant Distinct(xs[..i])
    {
      OneMore(xs, i);
      assert xs[..i + 1] == xs[..i] + [xs[i]];
      var named := CheckIdentity(xs[i].name);
      if xs[i].retired || !named || xs[i].id < 1 || xs[i].id > 254 || xs[i].name in names || xs[i].id in ids {
        assert forall k :: 0 <= k < i ==> xs[..i][k] == xs[k];
        return false;
      }
      names, ids := names + {xs[i].name}, ids + {xs[i].id};
    }
    assert xs[..|xs|] == xs;
    ok := true;
  }
}
