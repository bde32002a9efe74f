/**
 What the generation protocol is for. Three durable stores and a dozen kinds of write refine a
 machine that knows only a list of kept generations, a set of dropped ones and at most one open
 candidate, and in which the pointer rename is the whole of a commit.
 */
module CommitMachine {
  import opened Wrappers
  import opened Generations

  datatype Simple = Simple(kept: seq<nat>, dropped: set<nat>, open: Option<nat>)

  /** Only three writes matter: the row insert, the pointer rename and the roll-back mark. */
  function Shadow(s: Simple, a: Action): Simple {
    match a
    case InsertRow(id, _) => s.(open := Some(id))
    case Publish(id) => s.(kept := s.kept + [id], open := None)
    case MarkRolledBack(id) => s.(dropped := s.dropped + {id}, open := None)
    case _ => s
  }

  function ShadowRun(s: Simple, log: seq<Action>): Simple
    decreases |log|
  {
    if log == [] then s else ShadowRun(Shadow(s, log[0]), log[1..])
  }

  // ---- The abstraction ----

  /** The committed ids up to k, in order. */
  function CommittedIds(rows: seq<Row>, k: nat): seq<nat>
    requires k <= |rows|
  {
    if k == 0 then []
    else CommittedIds(rows, k - 1) + if rows[k - 1].status.Committed? then [k] else []
  }

  function RolledBackIds(rows: seq<Row>): set<nat> {
    set k | 0 <= k < |rows| && rows[k].status.RolledBack? :: k + 1
  }

  /** A published candidate already counts as kept. */
  function Abs(w: World): Simple {
    var n := |w.rows|;
    var settled := CommittedIds(w.rows, n);
    if Published(w) then Simple(settled + [n], RolledBackIds(w.rows), None)
    else Simple(settled, RolledBackIds(w.rows), if PendingId(w.rows) == 0 then None else Some(PendingId(w.rows)))
  }

  lemma {:induction false} CommittedFrame(r: seq<Row>, s: seq<Row>, k: nat)
    requires k <= |r| && k <= |s|
    requires forall j :: 0 <= j < k ==> r[j] == s[j]
    ensures CommittedIds(r, k) == CommittedIds(s, k)
  {
    if k > 0 {
      CommittedFrame(r, s, k - 1);
    }
  }

  /** A changed newest row changes the abstraction only in its own entry. */
  lemma NewestChangeAbs(w: World, r: Row)
    requires Inv(w) && |w.rows| > 0 && Advances(w, r)
    ensures var n := |w.rows|; var v := SetRow(w, n, r);
      && CommittedIds(v.rows, n) == CommittedIds(w.rows, n) + (if r.status.Committed? then [n] else [])
      && RolledBackIds(v.rows) == RolledBackIds(w.rows) + (if r.status.RolledBack? then {n} else {})
      && PendingId(w.rows) == n
      && PendingId(v.rows) == (if InFlight(r.status) then n else 0)
  {
    var n := |w.rows|;
    var v := SetRow(w, n, r);
    CommittedFrame(w.rows, v.rows, n - 1);
    assert forall k :: 0 <= k < n - 1 ==> v.rows[k] == w.rows[k];
    PendingIsNewest(w);
    NonePendingBelow(w, n - 1);
    NonePendingBelow(v, n - 1);
  }

  lemma {:induction false} NonePendingBelow(w: World, k: nat)
    requires k <= |w.rows| && forall j :: 0 <= j < k ==> !InFlight(w.rows[j].status)
    ensures PendingBelow(w.rows, k) == 0
  {
  }

  lemma InsertAbs(w: World, id: nat, deadline: Option<int>)
    requires Inv(w) && Enabled(w, InsertRow(id, deadline))
    ensures Abs(Perform(w, InsertRow(id, deadline))) == Shadow(Abs(w), InsertRow(id, deadline))
  {
    var v := Perform(w, InsertRow(id, deadline));
    CommittedFrame(w.rows, v.rows, |w.rows|);
    assert RolledBackIds(v.rows) == RolledBackIds(w.rows);
    assert !Published(w) && !Published(v);
    assert PendingId(v.rows) == id;
  }

  lemma PublishAbs(w: World, id: nat)
    requires Inv(w) && Enabled(w, Publish(id))
    ensures Abs(Perform(w, Publish(id))) == Shadow(Abs(w), Publish(id))
  {
    OwnPointerIsNew(w);
    assert !Published(w);
  }

  predicate ChangesStatus(a: Action) {
    a.MarkApplied? || a.PrepareCommit? || a.Finalize? || a.MarkRolledBack?
  }

  lemma StatusAbs(w: World, a: Action)
    requires Inv(w) && Enabled(w, a) && ChangesStatus(a)
    ensures Abs(Perform(w, a)) == Shadow(Abs(w), a)
  {
    assert RowOk(w, |w.rows|);
    NewestChangeAbs(w, Perform(w, a).rows[|w.rows| - 1]);
    OwnPointerIsNew(w);
    hide Inv, CommittedIds, RolledBackIds, PendingBelow;
  }

  lemma QuietAbs(w: World, a: Action)
    requires Enabled(w, a) && !ChangesStatus(a) && !a.InsertRow? && !a.Publish?
    ensures Abs(Perform(w, a)) == Shadow(Abs(w), a)
  {
    hide CommittedIds, RolledBackIds, PendingBelow;
  }

  /** Each concrete write is one step of the simple machine, or no step at all. */
  lemma StepRefines(w: World, a: Action)
    requires Inv(w) && Enabled(w, a)
    ensures Abs(Perform(w, a)) == Shadow(Abs(w), a)
  {
    hide Inv, Enabled, Perform, Abs, Shadow;
    match a
    case InsertRow(id, deadline) => InsertAbs(w, id, deadline);
    case Publish(id) => PublishAbs(w, id);
    case _ => if ChangesStatus(a) { StatusAbs(w, a); } else { QuietAbs(w, a); }
  }

  /** The three stores refine the simple machine over every run. */
  lemma {:induction false} RunRefines(w: World, log: seq<Action>)
    requires Inv(w) && Allowed(w, log)
    ensures Abs(Replay(w, log)) == ShadowRun(Abs(w), log)
    decreases |log|
  {
    if log != [] {
      StepRefines(w, log[0]);
      StepKeepsInv(w, log[0]);
      RunRefines(Perform(w, log[0]), log[1..]);
    }
  }

  // ---- Commit is atomic ----

  lemma {:induction false} ShadowHistory(s: Simple, log: seq<Action>, id: nat)
    ensures var t := ShadowRun(s, log);
      && s.kept <= t.kept && s.dropped <= t.dropped
      && (id in t.kept <==> id in s.kept || Publish(id) in log)
      && (id in t.dropped <==> id in s.dropped || MarkRolledBack(id) in log)
    decreases |log|
  {
    if log != [] {
      ShadowHistory(Shadow(s, log[0]), log[1..], id);
      assert log == [log[0]] + log[1..];
    }
  }

  lemma {:induction false} CommittedMembers(rows: seq<Row>, k: nat)
    requires k <= |rows|
    ensures forall id :: id in CommittedIds(rows, k) <==> 1 <= id <= k && rows[id - 1].status.Committed?
  {
    if k > 0 {
      CommittedMembers(rows, k - 1);
    }
  }

  /**
   A generation that leaves flight is committed exactly when its pointer rename happened and rolled
   back exactly when it did not; a renamed generation is committed already, or newest, prepared and
   named by the pointer. This holds at the end of every run, so wherever a crash ends one.
   */
  lemma CommitIsAtomic(w: World, log: seq<Action>, id: nat)
    requires Inv(w) && Allowed(w, log) && |w.rows| < id <= |Replay(w, log).rows|
    ensures var v := Replay(w, log); var status := v.rows[id - 1].status;
      && (!InFlight(status) ==> (status.Committed? <==> Publish(id) in log))
      && (!InFlight(status) ==> (status.RolledBack? <==> Publish(id) !in log))
      && (InFlight(status) ==> (Publish(id) in log <==> id == |v.rows| && Published(v)))
      && (MarkRolledBack(id) in log <==> status.RolledBack?)
  {
    var v := Replay(w, log);
    RunKeepsInv(w, log);
    RunRefines(w, log);
    ShadowHistory(Abs(w), log, id);
    CommittedMembers(w.rows, |w.rows|);
    CommittedMembers(v.rows, |v.rows|);
    assert id !in Abs(w).kept && id !in Abs(w).dropped;
    assert Publish(id) in log <==> id in Abs(v).kept;
    assert MarkRolledBack(id) in log <==> id in RolledBackIds(v.rows);
  }

  /** No run undoes a kept or a dropped generation. */
  lemma DecisionsAreFinal(w: World, log: seq<Action>, id: nat)
    requires Inv(w) && Allowed(w, log) && 1 <= id <= |w.rows|
    ensures id <= |Replay(w, log).rows|
    ensures var v := Replay(w, log);
      && v.rows[id - 1].sum == w.rows[id - 1].sum
      && (w.rows[id - 1].status.Committed? ==> v.rows[id - 1].status.Committed?)
      && (w.rows[id - 1].status.RolledBack? ==> v.rows[id - 1].status.RolledBack?)
      && Abs(w).kept <= Abs(v).kept
  {
    RowsOnlyGrow(w, log);
    StillDecided(w, log, id);
    KeptOnlyGrows(w, log);
  }

  /** Rows are appended, never removed, and a row's snapshot never changes. */
  lemma {:induction false} RowsOnlyGrow(w: World, log: seq<Action>)
    requires Inv(w) && Allowed(w, log)
    ensures |w.rows| <= |Replay(w, log).rows|
    ensures forall k :: 0 <= k < |w.rows| ==> Replay(w, log).rows[k].sum == w.rows[k].sum
    ensures forall id :: id in w.snapshots ==> id in Replay(w, log).snapshots && Replay(w, log).snapshots[id] == w.snapshots[id]
    ensures forall id :: id in w.scripts ==> id in Replay(w, log).scripts && Replay(w, log).scripts[id] == w.scripts[id]
    decreases |log|
  {
    if log != [] {
      StepKeepsInv(w, log[0]);
      StepGrows(w, log[0]);
      RowsOnlyGrow(Perform(w, log[0]), log[1..]);
    }
  }

  lemma StepGrows(w: World, a: Action)
    requires Enabled(w, a)
    ensures var v := Perform(w, a);
      && |w.rows| <= |v.rows|
      && (forall k :: 0 <= k < |w.rows| ==> v.rows[k].sum == w.rows[k].sum)
      && (forall id :: id in w.snapshots ==> id in v.snapshots && v.snapshots[id] == w.snapshots[id])
      && (forall id :: id in w.scripts ==> id in v.scripts && v.scripts[id] == w.scripts[id])
  {
  }

  lemma {:induction false} StillDecided(w: World, log: seq<Action>, id: nat)
    requires Inv(w) && Allowed(w, log) && 1 <= id <= |w.rows|
    ensures id <= |Replay(w, log).rows|
    ensures !InFlight(w.rows[id - 1].status) ==> Replay(w, log).rows[id - 1].status == w.rows[id - 1].status
    decreases |log|
  {
    if log != [] {
      StepKeepsInv(w, log[0]);
      StillDecided(Perform(w, log[0]), log[1..], id);
    }
  }

  // ---- The pointer and the chain ----

  lemma {:induction false} LastCommitted(rows: seq<Row>, k: nat)
    requires k <= |rows|
    ensures var ids := CommittedIds(rows, k);
      LatestBelow(rows, k) == if ids == [] then 0 else ids[|ids| - 1]
    ensures forall id :: id in CommittedIds(rows, k) ==> 1 <= id <= k
  {
    if k > 0 {
      LastCommitted(rows, k - 1);
    }
  }

  /** The pointer always names the last kept generation. */
  lemma PointerIsLastKept(w: World)
    requires Inv(w)
    ensures forall i :: 0 <= i < |Abs(w).kept| ==> 1 <= Abs(w).kept[i] <= |w.rows|
    ensures var kept := Abs(w).kept;
      w.pointer == if kept == [] then None else Some(PointerTo(w.rows[kept[|kept| - 1] - 1].sum))
  {
    LastCommitted(w.rows, |w.rows|);
    CommittedMembers(w.rows, |w.rows|);
    var kept := Abs(w).kept;
    forall i | 0 <= i < |kept| ensures 1 <= kept[i] <= |w.rows| {
      assert kept[i] in kept;
    }
  }

  /** Committed ids ascend, and each committed snapshot names the committed generation before it. */
  lemma {:induction false} CommittedChain(w: World, k: nat, i: nat)
    requires Inv(w) && k <= |w.rows| && i < |CommittedIds(w.rows, k)|
    ensures var ids := CommittedIds(w.rows, k);
      && 1 <= ids[i] <= k && (i > 0 ==> 1 <= ids[i - 1] < ids[i])
      && w.rows[ids[i] - 1].sum.previous == if i == 0 then None else Some(PointerTo(w.rows[ids[i - 1] - 1].sum))
  {
    var below := CommittedIds(w.rows, k - 1);
    if i < |below| {
      CommittedChain(w, k - 1, i);
    } else {
      assert RowOk(w, k);
      LastCommitted(w.rows, k - 1);
      assert CommittedIds(w.rows, k) == below + [k];
      assert i > 0 ==> below[i - 1] in below;
    }
  }

  /** Over every run the pointer only moves forward along the chain, and never disappears. */
  lemma PointerOnlyAdvances(w: World, log: seq<Action>)
    requires Inv(w) && Allowed(w, log) && w.pointer.Some?
    ensures var v := Replay(w, log);
      v.pointer.Some? && w.pointer.value.generation <= v.pointer.value.generation
  {
    var v := Replay(w, log);
    RunKeepsInv(w, log);
    KeptOnlyGrows(w, log);
    PointerGeneration(w);
    PointerGeneration(v);
    KeptAscends(v);
    var kept, later := Abs(w).kept, Abs(v).kept;
    assert kept[|kept| - 1] == later[|kept| - 1];
  }

  lemma KeptOnlyGrows(w: World, log: seq<Action>)
    requires Inv(w) && Allowed(w, log)
    ensures Abs(w).kept <= Abs(Replay(w, log)).kept && Abs(w).dropped <= Abs(Replay(w, log)).dropped
  {
    RunRefines(w, log);
    ShadowHistory(Abs(w), log, 0);
  }

  lemma PointerGeneration(w: World)
    requires Inv(w)
    ensures var kept := Abs(w).kept;
      IdOf(w.pointer) == if kept == [] then None else Some(kept[|kept| - 1])
  {
    PointerIsLastKept(w);
    var kept := Abs(w).kept;
    if kept != [] {
      assert RowOk(w, kept[|kept| - 1]);
    }
  }

  lemma KeptAscends(w: World)
    requires Inv(w)
    ensures forall i, j :: 0 <= i < j < |Abs(w).kept| ==> Abs(w).kept[i] < Abs(w).kept[j]
  {
    var n := |w.rows|;
    var ids := CommittedIds(w.rows, n);
    IdsAscend(w.rows, n);
    CommittedMembers(w.rows, n);
    assert forall i :: 0 <= i < |ids| ==> ids[i] in ids;
    assert Published(w) ==> n !in ids;
  }

  lemma {:induction false} IdsAscend(rows: seq<Row>, k: nat)
    requires k <= |rows|
    ensures forall i, j :: 0 <= i < j < |CommittedIds(rows, k)| ==> CommittedIds(rows, k)[i] < CommittedIds(rows, k)[j]
  {
    if k > 0 {
      IdsAscend(rows, k - 1);
      CommittedMembers(rows, k - 1);
      var below := CommittedIds(rows, k - 1);
      assert forall i :: 0 <= i < |below| ==> below[i] in below;
    }
  }

  // ---- Deadlines ----

  /** The row is out of flight, or still has this deadline. */
  predicate HoldsDeadline(w: World, id: nat, deadline: Option<int>) {
    1 <= id <= |w.rows| && (InFlight(w.rows[id - 1].status) ==> w.rows[id - 1].deadline == deadline)
  }

  /** While a generation is in flight its row keeps the deadline it was inserted with. */
  lemma {:induction false} DeadlineKept(w: World, log: seq<Action>, id: nat, deadline: Option<int>)
    requires Inv(w) && Allowed(w, log) && HoldsDeadline(w, id, deadline)
    ensures HoldsDeadline(Replay(w, log), id, deadline)
    decreases |log|
  {
    if log != [] {
      StepKeepsInv(w, log[0]);
      StepKeepsDeadline(w, log[0], id, deadline);
      DeadlineKept(Perform(w, log[0]), log[1..], id, deadline);
    }
  }

  lemma StepKeepsDeadline(w: World, a: Action, id: nat, deadline: Option<int>)
    requires Enabled(w, a) && HoldsDeadline(w, id, deadline)
    ensures HoldsDeadline(Perform(w, a), id, deadline)
  {
  }

  /** No safe-apply generation is published at or after the deadline it was saved with. */
  lemma PublishedBeforeDeadline(w: World, log: seq<Action>, i: nat, k: nat, id: nat, deadline: int)
    requires Inv(w) && Allowed(w, log) && i < k < |log|
    requires log[i] == InsertRow(id, Some(deadline)) && log[k] == Publish(id)
    ensures Allowed(w, log[..k]) && Replay(w, log[..k]).clock < deadline
  {
    ReplayPrefix(w, log, k);
    var before := log[..k];
    ReplayPrefix(w, before, i);
    var u := Replay(w, before[..i]);
    RunKeepsInv(w, before[..i]);
    assert before[i..][0] == log[i];
    var inserted := Perform(u, log[i]);
    StepKeepsInv(u, log[i]);
    assert log[k..][0] == log[k];
    DeadlineKept(inserted, before[i..][1..], id, Some(deadline));
  }

  // ---- First use ----

  /**
   Product-named tables that somebody else wrote survive every run that starts before the product
   owns any, as long as the host is not rebooted and no outside writer touches them.
   */
  lemma {:induction false} ForeignTablesSurvive(w: World, log: seq<Action>)
    requires Inv(w) && Allowed(w, log) && w.kernel.Altered? && !OwnsTables(w)
    requires forall k :: 0 <= k < |log| ==> !log[k].Reboot? && !log[k].Interfere?
    ensures Replay(w, log).kernel == w.kernel && !OwnsTables(Replay(w, log))
    decreases |log|
  {
    if log != [] {
      var v := Perform(w, log[0]);
      assert !log[0].Reboot? && !log[0].Interfere?;
      StepKeepsInv(w, log[0]);
      StaysUnowned(w, log[0]);
      assert forall k :: 0 <= k < |log[1..]| ==> log[1..][k] == log[k + 1];
      ForeignTablesSurvive(v, log[1..]);
    }
  }

  lemma StaysUnowned(w: World, a: Action)
    requires Inv(w) && Enabled(w, a) && w.kernel.Altered? && !OwnsTables(w)
    requires !a.Reboot? && !a.Interfere?
    ensures Perform(w, a).kernel == w.kernel && !OwnsTables(Perform(w, a))
  {
    var v := Perform(w, a);
    if |w.rows| > 0 {
      LatestFrame(w.rows, v.rows, |w.rows| - 1);
    }
    if a.InsertRow? {
      LatestFrame(w.rows, v.rows, |w.rows|);
    }
  }
}
