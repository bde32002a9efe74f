/**
 Rolling integrations back to their prior claims. Each source is replaced in its own transaction, which
 refuses to exceed the claim limit; replacing in ascending order of growth never meets it on the way.
 */
module ClaimRestore {

  /** A refreshed integration: how many claims it has now, and what it is to get back. */
  datatype Source = Source(name: string, count: nat, prior: set<string>)

  function Growth(s: Source): int {
    |s.prior| - s.count
  }

  function Insert(s: Source, rest: seq<Source>): (r: seq<Source>)
    ensures multiset(r) == multiset{s} + multiset(rest)
  {
    if rest == [] then [s]
    else if Growth(s) <= Growth(rest[0]) then [s] + rest
    else
      assert rest == [rest[0]] + rest[1..];
      [rest[0]] + Insert(s, rest[1..])
  }

  /** Ascending by growth; equal ones keep their order. */
  function Ordered(ss: seq<Source>): (r: seq<Source>)
    ensures multiset(r) == multiset(ss)
  {
    if ss == [] then []
    else
      assert ss == [ss[0]] + ss[1..];
      Insert(ss[0], Ordered(ss[1..]))
  }

  predicate Ascending(ss: seq<Source>) {
    forall i, j :: 0 <= i < j < |ss| ==> Growth(ss[i]) <= Growth(ss[j])
  }

  lemma {:induction false} InsertAscends(s: Source, rest: seq<Source>)
    requires Ascending(rest)
    ensures Ascending(Insert(s, rest))
  {
    if rest != [] && Growth(s) > Growth(rest[0]) {
      var r := Insert(s, rest[1..]);
      InsertAscends(s, rest[1..]);
      forall j | 0 <= j < |r| ensures Growth(rest[0]) <= Growth(r[j]) {
        assert r[j] in multiset(r);
        assert r[j] == s || r[j] in multiset(rest[1..]);
      }
    }
  }

  lemma {:induction false} OrderedAscends(ss: seq<Source>)
    ensures Ascending(Ordered(ss))
  {
    if ss != [] {
      OrderedAscends(ss[1..]);
      InsertAscends(ss[0], Ordered(ss[1..]));
    }
  }

  function SumGrowth(ss: seq<Source>): int {
    if ss == [] then 0 else Growth(ss[0]) + SumGrowth(ss[1..])
  }

  /** Ordering changes neither the sum nor which sources there are. */
  lemma {:induction false} InsertSums(s: Source, rest: seq<Source>)
    ensures SumGrowth(Insert(s, rest)) == Growth(s) + SumGrowth(rest)
  {
    if rest != [] && Growth(s) > Growth(rest[0]) {
      InsertSums(s, rest[1..]);
    }
  }

  lemma {:induction false} OrderedSums(ss: seq<Source>)
    ensures SumGrowth(Ordered(ss)) == SumGrowth(ss)
  {
    if ss != [] {
      OrderedSums(ss[1..]);
      InsertSums(ss[0], Ordered(ss[1..]));
    }
  }

  predicate DistinctNames(ss: seq<Source>) {
    forall i, j :: 0 <= i < j < |ss| ==> ss[i].name != ss[j].name
  }

  lemma {:induction false} InsertDistinct(s: Source, rest: seq<Source>)
    requires DistinctNames(rest) && forall i :: 0 <= i < |rest| ==> rest[i].name != s.name
    ensures DistinctNames(Insert(s, rest))
  {
    if rest != [] && Growth(s) > Growth(rest[0]) {
      InsertDistinct(s, rest[1..]);
      var r := Insert(s, rest[1..]);
      forall j | 0 <= j < |r| ensures rest[0].name != r[j].name {
        assert r[j] in multiset(r);
        assert r[j] == s || r[j] in multiset(rest[1..]);
      }
    }
  }

  lemma {:induction false} OrderedDistinct(ss: seq<Source>)
    requires DistinctNames(ss)
    ensures DistinctNames(Ordered(ss))
    ensures forall s :: s in Ordered(ss) <==> s in ss
  {
    assert forall s :: s in Ordered(ss) <==> s in multiset(Ordered(ss));
    if ss != [] {
      OrderedDistinct(ss[1..]);
      var rest := Ordered(ss[1..]);
      forall i | 0 <= i < |rest| ensures rest[i].name != ss[0].name {
        assert rest[i] in ss[1..];
      }
      InsertDistinct(ss[0], rest);
    }
  }

  lemma {:induction false} SumSplit(ss: seq<Source>, k: nat)
    requires k <= |ss|
    ensures SumGrowth(ss) == SumGrowth(ss[..k]) + SumGrowth(ss[k..])
  {
    if k > 0 {
      SumSplit(ss[1..], k - 1);
      assert ss[..k][1..] == ss[1..][..k - 1] && ss[1..][k - 1..] == ss[k..];
    } else {
      assert ss[..0] == [] && ss[0..] == ss;
    }
  }

  lemma {:induction false} AllAtMost(ss: seq<Source>)
    requires forall i :: 0 <= i < |ss| ==> Growth(ss[i]) <= 0
    ensures SumGrowth(ss) <= 0
  {
    if ss != [] {
      AllAtMost(ss[1..]);
    }
  }

  lemma {:induction false} AllAtLeast(ss: seq<Source>)
    requires forall i :: 0 <= i < |ss| ==> Growth(ss[i]) >= 0
    ensures SumGrowth(ss) >= 0
  {
    if ss != [] {
      AllAtLeast(ss[1..]);
    }
  }

  /** In ascending order no prefix sum exceeds both ends: the total first falls, then rises to the end. */
  lemma PrefixWithin(ss: seq<Source>, k: nat)
    requires Ascending(ss) && k <= |ss|
    ensures SumGrowth(ss[..k]) <= 0 || SumGrowth(ss[..k]) <= SumGrowth(ss)
  {
    SumSplit(ss, k);
    if k < |ss| && Growth(ss[k]) >= 0 {
      AllAtLeast(ss[k..]);
    } else if k < |ss| {
      AllAtMost(ss[..k]);
    } else {
      assert ss[..k] == ss;
    }
  }

  /** The order matters: growing first can exceed a limit that both ends respect. */
  lemma GrowingFirstExceeds()
    ensures var a, b := Source("a", 0, {"x"}), Source("b", 1, {});
      && SumGrowth([a, b]) == 0 && SumGrowth([a, b][..1]) == 1
      && SumGrowth([b, a][..1]) == -1
  {
    var a, b := Source("a", 0, {"x"}), Source("b", 1, {});
    assert Growth(a) == 1 && Growth(b) == -1;
    assert [a, b][..1] == [a] && [b, a][..1] == [b];
    assert [a, b][1..] == [b] && [b][1..] == [] && [a][1..] == [];
    assert SumGrowth([b]) == -1 && SumGrowth([a]) == 1;
  }

  /** How many claims there are, over all sources. */
  ghost function Count(m: map<string, set<string>>): nat
    decreases |m|
  {
    if m == map[] then 0
    else
      var n :| n in m;
      |m[n]| + Count(m - {n})
  }

  /** Any source may be counted first. */
  lemma {:induction false} CountOne(m: map<string, set<string>>, n: string)
    requires n in m
    ensures Count(m) == |m[n]| + Count(m - {n})
    decreases |m|
  {
    var k :| k in m && Count(m) == |m[k]| + Count(m - {k});
    if k != n {
      CountOne(m - {k}, n);
      CountOne(m - {n}, k);
      assert m - {k} - {n} == m - {n} - {k};
    }
  }

  lemma CountReplaced(m: map<string, set<string>>, n: string, prior: set<string>)
    requires n in m
    ensures Count(m[n := prior]) == Count(m) - |m[n]| + |prior|
  {
    CountOne(m, n);
    CountOne(m[n := prior], n);
    assert m[n := prior] - {n} == m - {n};
  }

  class ClaimStore {
    var total: nat
    var claims: map<string, set<string>>

    /** The total is the number of claims. */
    ghost predicate Valid()
      reads this
    {
      total == Count(claims)
    }

    constructor (c: map<string, set<string>>, t: nat)
      requires t == Count(c)
      ensures Valid() && claims == c
    {
      total, claims := t, c;
    }

    /** Replaces one source's claims in a transaction bounded by the limit. */
    method ReplaceBounded(s: Source, max: nat) returns (ok: bool)
      requires Valid() && s.name in claims && |claims[s.name]| == s.count
      modifies this
      ensures Valid()
      ensures ok <==> TotalAfter(old(total), s) <= max
      ensures if ok then total == TotalAfter(old(total), s) && claims == old(claims)[s.name := s.prior]
        else total == old(total) && claims == old(claims)
    {
      CountOne(claims, s.name);
      CountReplaced(claims, s.name, s.prior);
      var remaining := total - s.count;
      if remaining + |s.prior| > max {
        return false;
      }
      total, claims := remaining + |s.prior|, claims[s.name := s.prior];
      ok := true;
    }

    static function TotalAfter(t: nat, s: Source): int {
      t + Growth(s)
    }

    /** Every source with its present claims, each once. */
    predicate Current(ss: seq<Source>)
      reads this
    {
      && (forall i :: 0 <= i < |ss| ==> ss[i].name in claims && |claims[ss[i].name]| == ss[i].count)
      && DistinctNames(ss)
    }

    /**
     When the totals before and after are both within the limit, no replacement is refused, and every
     source ends with exactly its prior claims.
     */
    method Restore(ss: seq<Source>, max: nat) returns (failures: seq<string>)
      requires Valid() && Current(ss)
      requires total <= max && total + SumGrowth(ss) <= max
      modifies this
      ensures Valid() && failures == []
      ensures total == old(total) + SumGrowth(ss)
      ensures claims == WithPriors(old(claims), Ordered(ss))
      ensures forall i :: 0 <= i < |ss| ==> ss[i].name in claims && claims[ss[i].name] == ss[i].prior
      ensures forall n :: n in old(claims) && n !in NamesOf(ss) ==> n in claims && claims[n] == old(claims)[n]
    {
      var ordered := Ordered(ss);
      OrderedAscends(ss);
      OrderedSums(ss);
      OrderedDistinct(ss);
      OrderedCurrent(ss);
      failures := RestoreOrdered(ordered, max);
      forall i | 0 <= i < |ss| ensures ss[i].name in claims && claims[ss[i].name] == ss[i].prior {
        assert ss[i] in ordered;
        var k :| 0 <= k < |ordered| && ordered[k] == ss[i];
        PriorGiven(old(claims), ordered, k);
      }
      forall n | n in old(claims) && n !in NamesOf(ss) ensures n in claims && claims[n] == old(claims)[n] {
        assert forall i :: 0 <= i < |ordered| ==> ordered[i] in ss;
        OthersKept(old(claims), ordered, n);
      }
    }

    lemma OrderedCurrent(ss: seq<Source>)
      requires Current(ss)
      ensures Current(Ordered(ss))
    {
      OrderedDistinct(ss);
      var ordered := Ordered(ss);
      forall i | 0 <= i < |ordered| ensures ordered[i].name in claims && |claims[ordered[i].name]| == ordered[i].count {
        assert ordered[i] in ss;
      }
    }

    method RestoreOrdered(ordered: seq<Source>, max: nat) returns (failures: seq<string>)
      requires Valid() && Current(ordered) && Ascending(ordered)
      requires total <= max && total + SumGrowth(ordered) <= max
      modifies this
      ensures Valid() && failures == []
      ensures total == old(total) + SumGrowth(ordered)
      ensures claims == WithPriors(old(claims), ordered)
    {
      failures := [];
      for k := 0 to |ordered|
        invariant Valid() && failures == []
        invariant total == old(total) + SumGrowth(ordered[..k])
        invariant claims == WithPriors(old(claims), ordered[..k])
      {
        PrefixWithin(ordered, k + 1);
        SumSplit(ordered[..k + 1], k);
        assert ordered[..k + 1][..k] == ordered[..k] && ordered[..k + 1][k..] == [ordered[k]];
        assert SumGrowth([ordered[k]]) == Growth(ordered[k]);
        assert ordered[k..][1..] == ordered[k + 1..];
        OthersKept(old(claims), ordered[..k], ordered[k].name);
        var source := ordered[k];
        var ok := ReplaceBounded(source, max);
        if !ok {
          failures := failures + [source.name];
        }
      }
      assert ordered[..|ordered|] == ordered;
    }
  }

  function NamesOf(ss: seq<Source>): set<string> {
    set i | 0 <= i < |ss| :: ss[i].name
  }

  /** The claims with every listed source back at its prior. */
  function WithPriors(m: map<string, set<string>>, ss: seq<Source>): map<string, set<string>> {
    if ss == [] then m else WithPriors(m, ss[..|ss| - 1])[ss[|ss| - 1].name := ss[|ss| - 1].prior]
  }

  lemma {:induction false} OthersKept(m: map<string, set<string>>, ss: seq<Source>, n: string)
    requires n in m && forall i :: 0 <= i < |ss| ==> ss[i].name != n
    ensures n in WithPriors(m, ss) && WithPriors(m, ss)[n] == m[n]
  {
    if ss != [] {
      OthersKept(m, ss[..|ss| - 1], n);
    }
  }

  lemma {:induction false} PriorGiven(m: map<string, set<string>>, ss: seq<Source>, k: nat)
    requires k < |ss| && DistinctNames(ss)
    ensures ss[k].name in WithPriors(m, ss) && WithPriors(m, ss)[ss[k].name] == ss[k].prior
  {
    if k < |ss| - 1 {
      PriorGiven(m, ss[..|ss| - 1], k);
    }
  }
}
