/**
 The permanent ledger of interface identities: names to ids, with tombstones. Reservation and merge
 run in a transaction whose commit may fail, and whose later sync may fail after it took effect.
 */
module ProvenanceLedger {
  import opened Wrappers
  import opened ProvenanceIds

  datatype Entry = Entry(id: bv8, retired: bool)

  type Table = map<string, Entry>

  datatype Fault = NoFault | QueryFails | CommitFails | SyncFails

  datatype Refusal = Invalid | IdChanges | WasRetired | IdInUse | Retires | Regresses | Storage | NotSynced

  datatype Reply = Ok | Err(why: Refusal)

  // ---- What a table is, and what it may become ----

  predicate InRange(id: bv8) {
    MIN_ID <= id <= MAX_ID
  }

  predicate UsesId(m: Table, id: bv8) {
    exists n :: n in m && m[n].id == id
  }

  /** The table's constraints: ids are in range, and no two names share one. */
  predicate TableOk(m: Table) {
    && (forall n :: n in m ==> InRange(m[n].id))
    && (forall n, o :: n in m && o in m && m[n].id == m[o].id ==> n == o)
  }

  /** No name is lost, no id changes, no tombstone is revived. */
  predicate Grows(m: Table, v: Table) {
    forall n :: n in m ==> n in v && v[n].id == m[n].id && (m[n].retired ==> v[n].retired)
  }

  function ActiveNames(m: Table): set<string> {
    set n | n in m && !m[n].retired
  }

  predicate Insertable(m: Table, a: Assignment) {
    a.name !in m && !UsesId(m, a.id) && InRange(a.id)
  }

  // ---- Reservation ----

  predicate Fits(m: Table, a: Assignment) {
    if a.name in m then m[a.name].id == a.id && !m[a.name].retired else !UsesId(m, a.id)
  }

  predicate CanReserve(m: Table, active: seq<Assignment>) {
    ActiveOk(active) && forall i :: 0 <= i < |active| ==> Fits(m, active[i])
  }

  /** The table with the new names of the list added. */
  function Added(m: Table, xs: seq<Assignment>): Table {
    if xs == [] then m
    else
      var before, a := Added(m, xs[..|xs| - 1]), xs[|xs| - 1];
      if a.name in m then before else before[a.name := Entry(a.id, a.retired)]
  }

  lemma AddedNext(m: Table, xs: seq<Assignment>, i: nat)
    requires i < |xs|
    ensures Added(m, xs[..i + 1]) ==
      if xs[i].name in m then Added(m, xs[..i]) else Added(m, xs[..i])[xs[i].name := Entry(xs[i].id, xs[i].retired)]
  {
    assert xs[..i + 1][..i] == xs[..i];
  }

  /** Every name that was there before and is not in the new set becomes a tombstone. */
  function Reserved(m: Table, active: seq<Assignment>): Table {
    var added := Added(m, active);
    map n | n in added :: if n in m && n !in NamesOf(active) then Entry(added[n].id, true) else added[n]
  }

  lemma {:induction false} AddedNames(m: Table, xs: seq<Assignment>, n: string)
    ensures n in Added(m, xs) <==> n in m || n in NamesOf(xs)
    ensures n in m ==> Added(m, xs)[n] == m[n]
    ensures n in Added(m, xs) && n !in m ==>
      exists i :: 0 <= i < |xs| && xs[i].name == n && Added(m, xs)[n] == Entry(xs[i].id, xs[i].retired)
  {
    if xs != [] {
      var before := xs[..|xs| - 1];
      AddedNames(m, before, n);
      OneMore(xs, |xs| - 1);
      assert xs[..|xs|] == xs;
      if n in Added(m, before) && n !in m && xs[|xs| - 1].name != n {
        var i :| 0 <= i < |before| && before[i].name == n && Added(m, before)[n] == Entry(before[i].id, before[i].retired);
        assert xs[i] == before[i];
      }
    }
  }

  lemma ReserveGrows(m: Table, active: seq<Assignment>)
    ensures Grows(m, Reserved(m, active))
  {
    forall n | n in m
      ensures n in Reserved(m, active) && Reserved(m, active)[n].id == m[n].id
      ensures m[n].retired ==> Reserved(m, active)[n].retired
    {
      AddedNames(m, active, n);
    }
  }

  /** Afterwards exactly the requested names are active, each under the id requested for it. */
  lemma ReserveIsExact(m: Table, active: seq<Assignment>)
    requires CanReserve(m, active)
    ensures ActiveNames(Reserved(m, active)) == NamesOf(active)
    ensures forall i :: 0 <= i < |active| ==>
      active[i].name in Reserved(m, active) && Reserved(m, active)[active[i].name] == Entry(active[i].id, false)
  {
    var v := Reserved(m, active);
    forall i | 0 <= i < |active| ensures active[i].name in v && v[active[i].name] == Entry(active[i].id, false) {
      AddedNames(m, active, active[i].name);
      assert Fits(m, active[i]) && AssignmentOk(active[i]);
      assert active[i].name in NamesOf(active);
    }
    forall n ensures n in ActiveNames(v) <==> n in NamesOf(active) {
      AddedNames(m, active, n);
    }
  }

  lemma ReserveKeepsTable(m: Table, active: seq<Assignment>)
    requires TableOk(m) && CanReserve(m, active)
    ensures TableOk(Reserved(m, active))
  {
    var v := Reserved(m, active);
    forall n | n in v ensures InRange(v[n].id) {
      AddedNames(m, active, n);
      assert forall i :: 0 <= i < |active| ==> AssignmentOk(active[i]);
    }
    forall n, o | n in v && o in v && v[n].id == v[o].id ensures n == o {
      AddedNames(m, active, n);
      AddedNames(m, active, o);
      assert forall i :: 0 <= i < |active| ==> Fits(m, active[i]);
    }
  }

  /** Reserving the same set again succeeds and changes nothing. */
  lemma ReserveTwice(m: Table, active: seq<Assignment>)
    requires TableOk(m) && CanReserve(m, active)
    ensures CanReserve(Reserved(m, active), active)
    ensures Reserved(Reserved(m, active), active) == Reserved(m, active)
  {
    var v := Reserved(m, active);
    ReserveIsExact(m, active);
    forall n ensures n in Reserved(v, active) <==> n in v
      ensures n in v ==> Reserved(v, active)[n] == v[n]
    {
      AddedNames(v, active, n);
      AddedNames(m, active, n);
    }
  }

  // ---- Required identities ----

  /** Every required pair is on record, and the list itself is one-to-one. */
  predicate RequiredOk(m: Table, required: seq<Assignment>) {
    && (forall i :: 0 <= i < |required| ==> Required(m, required[i]))
    && Distinct(required)
  }

  predicate Required(m: Table, a: Assignment) {
    IdentityOk(a.name) && InRange(a.id) && a.name in m && m[a.name].id == a.id
  }

  /** What was once required successfully can be required successfully ever after. */
  lemma RequiredForever(m: Table, v: Table, required: seq<Assignment>)
    requires RequiredOk(m, required) && Grows(m, v)
    ensures RequiredOk(v, required)
  {
    forall i | 0 <= i < |required| ensures Required(v, required[i]) {
      assert Required(m, required[i]);
    }
  }

  // ---- Merge ----

  predicate Mergeable(m: Table, a: Assignment) {
    if a.name in m then m[a.name].id == a.id && (a.retired ==> m[a.name].retired) else !UsesId(m, a.id)
  }

  /** The new rows of a saved ledger can be inserted one after another. */
  predicate InsertsOk(m: Table, saved: seq<Assignment>) {
    forall i :: 0 <= i < |saved| ==> InsertOk(m, saved, i)
  }

  predicate InsertOk(m: Table, saved: seq<Assignment>, i: nat)
    requires i < |saved|
  {
    saved[i].name in m || Insertable(Added(m, saved[..i]), saved[i])
  }

  predicate CanMerge(m: Table, saved: seq<Assignment>) {
    && (forall i :: 0 <= i < |saved| ==> Mergeable(m, saved[i]))
    && (forall n :: n in m && !m[n].retired ==> n in NamesOf(saved))
    && InsertsOk(m, saved)
  }

  lemma {:induction false} InsertsKeepTable(m: Table, saved: seq<Assignment>, k: nat)
    requires TableOk(m) && InsertsOk(m, saved) && k <= |saved|
    ensures TableOk(Added(m, saved[..k]))
  {
    if k > 0 {
      InsertsKeepTable(m, saved, k - 1);
      AddedNext(m, saved, k - 1);
      assert InsertOk(m, saved, k - 1);
      hide Added, TableOk, InsertsOk, Insertable;
      var before, a := Added(m, saved[..k - 1]), saved[k - 1];
      if a.name !in m {
        InsertKeepsTable(before, a);
      }
    }
  }

  lemma InsertKeepsTable(m: Table, a: Assignment)
    requires TableOk(m) && Insertable(m, a)
    ensures TableOk(m[a.name := Entry(a.id, a.retired)])
  {
  }

  lemma MergeGrows(m: Table, saved: seq<Assignment>)
    ensures Grows(m, Added(m, saved))
  {
    forall n | n in m ensures n in Added(m, saved) && Added(m, saved)[n] == m[n] {
      AddedNames(m, saved, n);
    }
  }

  /** The rows a saved ledger lists are those of the table s. */
  predicate Lists(saved: seq<Assignment>, s: Table) {
    && NamesOf(saved) == s.Keys
    && forall i :: 0 <= i < |saved| ==> saved[i].name in s && s[saved[i].name] == Entry(saved[i].id, saved[i].retired)
  }

  /** An older copy of the same ledger merges exactly when it still knows every active name, and changes nothing. */
  lemma MergeOlder(s: Table, m: Table, saved: seq<Assignment>)
    requires TableOk(m) && Grows(s, m) && Lists(saved, s)
    ensures CanMerge(m, saved) <==> ActiveNames(m) <= s.Keys
    ensures Added(m, saved) == m
  {
    forall i | 0 <= i < |saved| ensures Mergeable(m, saved[i]) {
      assert saved[i].name in s;
    }
    forall n ensures n in Added(m, saved) <==> n in m ensures n in m ==> Added(m, saved)[n] == m[n] {
      AddedNames(m, saved, n);
    }
    forall i | 0 <= i < |saved| ensures saved[i].name in m && InsertOk(m, saved, i) {
      assert saved[i].name in s;
    }
    assert CanMerge(m, saved) ==> forall n :: n in ActiveNames(m) ==> n in s;
  }

  /** A newer copy merges exactly when it retired none of the active names, and gives exactly that copy. */
  lemma MergeNewer(m: Table, s: Table, saved: seq<Assignment>)
    requires TableOk(m) && TableOk(s) && Grows(m, s) && Lists(saved, s) && Distinct(saved)
    ensures CanMerge(m, saved) <==> ActiveNames(m) <= ActiveNames(s)
    ensures CanMerge(m, saved) ==> Added(m, saved) == s
  {
    if ActiveNames(m) <= ActiveNames(s) {
      forall i | 0 <= i < |saved| ensures Mergeable(m, saved[i]) {
        NewerMergeable(m, s, saved, i);
      }
      forall i | 0 <= i < |saved| ensures InsertOk(m, saved, i) {
        if saved[i].name !in m {
          NewerInserts(m, s, saved, i);
        }
      }
      assert forall n :: n in m && !m[n].retired ==> n in ActiveNames(m);
    } else {
      var n :| n in ActiveNames(m) && n !in ActiveNames(s);
      assert n in s.Keys;
      var i :| 0 <= i < |saved| && saved[i].name == n;
      assert !Mergeable(m, saved[i]);
    }
    if CanMerge(m, saved) {
      forall n ensures n in Added(m, saved) <==> n in s ensures n in s ==> Added(m, saved)[n] == s[n] {
        AddedNames(m, saved, n);
        if n in m {
          assert n in s.Keys;
          var i :| 0 <= i < |saved| && saved[i].name == n;
          assert Mergeable(m, saved[i]);
        }
      }
    }
  }

  lemma NewerMergeable(m: Table, s: Table, saved: seq<Assignment>, i: nat)
    requires TableOk(s) && Grows(m, s) && Lists(saved, s) && i < |saved| && ActiveNames(m) <= ActiveNames(s)
    ensures Mergeable(m, saved[i])
  {
    var a := saved[i];
    assert a.name in s && s[a.name].id == a.id;
    assert a.name in m && !m[a.name].retired ==> a.name in ActiveNames(m);
    forall n | n in m && a.name !in m ensures m[n].id != a.id {
      assert n in s && s[n].id == m[n].id;
    }
  }

  lemma NewerInserts(m: Table, s: Table, saved: seq<Assignment>, i: nat)
    requires TableOk(s) && Grows(m, s) && Lists(saved, s) && Distinct(saved) && i < |saved| && saved[i].name !in m
    ensures Insertable(Added(m, saved[..i]), saved[i])
  {
    var a, before := saved[i], saved[..i];
    AddedNames(m, before, a.name);
    assert forall k :: 0 <= k < |before| ==> before[k] == saved[k];
    forall n | n in Added(m, before) ensures Added(m, before)[n].id != a.id {
      AddedNames(m, before, n);
      assert n in s && s[n].id == Added(m, before)[n].id && n != a.name;
    }
  }

  // ---- The ledger ----

  class Ledger {
    var rows: Table

    ghost predicate Valid()
      reads this
    {
      TableOk(rows)
    }

    constructor ()
      ensures Valid() && rows == map[]
    {
      rows := map[];
    }

    /**
     Succeeds exactly when every name keeps its id, none was retired, no id is taken and the storage
     works. A failed call changes nothing, except when only the sync after the commit failed: then the
     whole reservation is already in place.
     */
    method Reserve(active: seq<Assignment>, fault: Fault) returns (r: Reply)
      requires Valid()
      modifies this
      ensures Valid() && Grows(old(rows), rows)
      ensures r.Ok? <==> CanReserve(old(rows), active) && fault.NoFault?
      ensures r == Err(NotSynced) <==> CanReserve(old(rows), active) && fault.SyncFails?
      ensures rows == if r.Ok? || r == Err(NotSynced) then Reserved(old(rows), active) else old(rows)
    {
      ReserveGrows(rows, active);
      var valid := ValidateActive(active);
      if !valid {
        return Err(Invalid);
      }
      if fault.QueryFails? {
        return Err(Storage);
      }
      var existing := rows;
      var staged, why := Stage(existing, active);
      if why.Some? {
        return Err(why.value);
      }
      ReserveKeepsTable(existing, active);
      hide CanReserve, Added, TableOk, Grows;
      forall n | n in existing ensures n in staged && staged[n] == existing[n] {
        AddedNames(existing, active, n);
      }
      staged := Retire(existing, staged, NamesOf(active));
      assert staged == Reserved(existing, active);
      if fault.CommitFails? {
        return Err(Storage);
      }
      rows := staged;
      r := if fault.SyncFails? then Err(NotSynced) else Ok;
    }

    /** Checks each assignment against the rows read at the start, and adds the new ones. */
    method Stage(existing: Table, active: seq<Assignment>) returns (staged: Table, why: Option<Refusal>)
      requires ActiveOk(active)
      ensures why.None? <==> CanReserve(existing, active)
      ensures why.None? ==> staged == Added(existing, active)
      ensures why.Some? ==> why.value != NotSynced
    {
      staged := existing;
      for i := 0 to |active|
        invariant staged == Added(existing, active[..i])
        invariant forall k :: 0 <= k < i ==> Fits(existing, active[k])
      {
        var a := active[i];
        AddedNext(existing, active, i);
        assert AssignmentOk(active[i]);
        hide Added;
        if a.name in existing {
          if existing[a.name].id != a.id {
            return staged, Some(IdChanges);
          }
          if existing[a.name].retired {
            return staged, Some(WasRetired);
          }
        } else {
          if UsesId(existing, a.id) {
            return staged, Some(IdInUse);
          }
          staged := staged[a.name := Entry(a.id, false)];
        }
      }
      assert active[..|active|] == active;
      why := None;
    }

    /** Marks every earlier name outside the new set as retired. */
    method Retire(existing: Table, staged: Table, names: set<string>) returns (v: Table)
      requires forall n :: n in existing ==> n in staged && staged[n] == existing[n]
      ensures v.Keys == staged.Keys
      ensures forall n :: n in staged ==>
        v[n] == if n in existing && n !in names then Entry(staged[n].id, true) else staged[n]
    {
      v := staged;
      var todo := existing.Keys;
      while todo != {}
        invariant todo <= existing.Keys && v.Keys == staged.Keys
        invariant forall n :: n in staged ==>
          v[n] == if n in existing && n !in todo && n !in names then Entry(staged[n].id, true) else staged[n]
        decreases |todo|
      {
        var n :| n in todo;
        todo := todo - {n};
        if !existing[n].retired && n !in names {
          v := v[n := Entry(v[n].id, true)];
        }
      }
    }

    /** Proves every required identity against the permanent record; tombstones count. */
    method ValidateRequired(required: seq<Assignment>) returns (ok: bool)
      ensures ok <==> RequiredOk(rows, required)
    {
      var names: set<string> := {};
      var ids: set<bv8> := {};
      for i := 0 to |required|
        invariant names == NamesOf(required[..i]) && ids == IdsOf(required[..i])
        invariant forall k :: 0 <= k < i ==> Required(rows, required[k])
        invariant Distinct(required[..i])
      {
        var a := required[i];
        OneMore(required, i);
        assert required[..i + 1] == required[..i] + [a];
        var named := CheckIdentity(a.name);
        if !named || a.id < 1 || a.id > 254 || a.name in names || a.id in ids || a.name !in rows || rows[a.name].id != a.id {
          assert !Required(rows, required[i]) || a.name in names || a.id in ids;
          assert forall k :: 0 <= k < i ==> required[..i][k] == required[k];
          return false;
        }
        names, ids := names + {a.name}, ids + {a.id};
      }
      assert required[..|required|] == required;
      ok := true;
    }

    /** A merge-only restore: saved rows may add names, and may change or revive nothing. */
    method MergeFrom(saved: seq<Assignment>, fault: Fault) returns (r: Reply)
      requires Valid()
      modifies this
      ensures Valid() && Grows(old(rows), rows)
      ensures r.Ok? <==> CanMerge(old(rows), saved) && fault.NoFault?
      ensures r == Err(NotSynced) <==> CanMerge(old(rows), saved) && fault.SyncFails?
      ensures rows == if r.Ok? || r == Err(NotSynced) then Added(old(rows), saved) else old(rows)
    {
      MergeGrows(rows, saved);
      if fault.QueryFails? {
        return Err(Storage);
      }
      for i := 0 to |saved|
        invariant rows == old(rows)
        invariant forall k :: 0 <= k < i ==> Mergeable(rows, saved[k])
      {
        var a := saved[i];
        if a.name in rows {
          if rows[a.name].id != a.id {
            return Err(IdChanges);
          }
          if !rows[a.name].retired && a.retired {
            return Err(Retires);
          }
          continue;
        }
        if UsesId(rows, a.id) {
          return Err(IdInUse);
        }
      }
      if n :| n in rows && !rows[n].retired && n !in NamesOf(saved) {
        return Err(Regresses);
      }
      var staged, ok := InsertSaved(rows, saved);
      if !ok || fault.CommitFails? {
        return Err(Storage);
      }
      InsertsKeepTable(rows, saved, |saved|);
      assert saved[..|saved|] == saved;
      rows := staged;
      r := if fault.SyncFails? then Err(NotSynced) else Ok;
    }

    /** Inserts the new rows; a row that breaks a table constraint fails the transaction. */
    method InsertSaved(m: Table, saved: seq<Assignment>) returns (staged: Table, ok: bool)
      ensures ok <==> InsertsOk(m, saved)
      ensures ok ==> staged == Added(m, saved)
    {
      staged := m;
      for i := 0 to |saved|
        invariant staged == Added(m, saved[..i])
        invariant forall k :: 0 <= k < i ==> InsertOk(m, saved, k)
      {
        AddedNext(m, saved, i);
        assert InsertOk(m, saved, i) <==> saved[i].name in m || Insertable(staged, saved[i]);
        hide Added, Insertable, InsertOk;
        var a := saved[i];
        if a.name !in m {
          if !Insertable(staged, a) {
            return staged, false;
          }
          staged := staged[a.name := Entry(a.id, a.retired)];
        }
      }
      assert saved[..|saved|] == saved;
      ok := true;
    }
  }

  // ---- Any sequence of calls ----

  datatype Call = AskReserve(active: seq<Assignment>, fault: Fault) | AskMerge(saved: seq<Assignment>, fault: Fault)

  /** The table after one call, as the two methods' contracts give it. */
  function After(m: Table, c: Call): Table {
    match c
    case AskReserve(active, fault) =>
      if CanReserve(m, active) && (fault.NoFault? || fault.SyncFails?) then Reserved(m, active) else m
    case AskMerge(saved, fault) =>
      if CanMerge(m, saved) && (fault.NoFault? || fault.SyncFails?) then Added(m, saved) else m
  }

  function AfterAll(m: Table, calls: seq<Call>): Table
    decreases |calls|
  {
    if calls == [] then m else AfterAll(After(m, calls[0]), calls[1..])
  }

  /** Over any calls the table only grows, ids stay one-to-one, and every passed requirement keeps passing. */
  lemma {:induction false} LedgerIsMonotonic(m: Table, calls: seq<Call>)
    requires TableOk(m)
    ensures Grows(m, AfterAll(m, calls)) && TableOk(AfterAll(m, calls))
    ensures forall required :: RequiredOk(m, required) ==> RequiredOk(AfterAll(m, calls), required)
    decreases |calls|
  {
    if calls != [] {
      var v := After(m, calls[0]);
      CallGrows(m, calls[0]);
      LedgerIsMonotonic(v, calls[1..]);
    }
    forall required | RequiredOk(m, required) ensures RequiredOk(AfterAll(m, calls), required) {
      RequiredForever(m, AfterAll(m, calls), required);
    }
  }

  lemma CallGrows(m: Table, c: Call)
    requires TableOk(m)
    ensures Grows(m, After(m, c)) && TableOk(After(m, c))
  {
    match c
    case AskReserve(active, _) =>
      ReserveGrows(m, active);
      if CanReserve(m, active) {
        ReserveKeepsTable(m, active);
      }
    case AskMerge(saved, _) =>
      MergeGrows(m, saved);
      if CanMerge(m, saved) {
        InsertsKeepTable(m, saved, |saved|);
        assert saved[..|saved|] == saved;
      }
  }

  /** An id once given to a name is never another name's, whatever was called in between. */
  lemma IdsAreNeverReused(m: Table, calls: seq<Call>, n: string, o: string)
    requires TableOk(m) && n in m && o in AfterAll(m, calls) && AfterAll(m, calls)[o].id == m[n].id
    ensures o == n
  {
    LedgerIsMonotonic(m, calls);
    assert n in AfterAll(m, calls);
  }
}
