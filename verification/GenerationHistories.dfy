/**
 Whole histories of the controller: any sequence of requests, timer runs, boots, process deaths and
 outside writes, each with any faults, and what recovery makes of wherever they stop.
 */
module GenerationHistories {
  import opened Wrappers
  import opened Generations
  import opened CommitMachine
  import opened GenerationManager

  // ---- Recovery succeeds exactly when it should, and may be cut and rerun ----

  /** There is a generation to be ready with: a committed one, or a published successor. */
  predicate HasGeneration(w: World) {
    LastKnownGood(w.rows) != 0 || Published(w)
  }

  /**
   A calm recovery makes the host ready exactly when there is a generation to be ready with and
   nothing in flight is still within its time; it never stops at an ambiguous state.
   */
  lemma RecoversExactly(w: World)
    requires Inv(w)
    ensures RecoveryReply(w).Ok? <==> HasGeneration(w) && (PendingId(w.rows) == 0 || Due(w))
    ensures RecoveryReply(w).Ok? ==> Ready(RecoveryWorld(w)) && RecoveryWorld(w).rows == Settle(w).rows
    ensures RecoveryReply(w).Err? ==> !Impossible(RecoveryReply(w).why)
    ensures IdOf(RecoveryWorld(w).pointer) == IdOf(w.pointer)
  {
    PendingIsNewest(w);
    var v := RecoveryWorld(w);
    if PendingId(w.rows) == 0 {
      CommittedPointer(w);
      PendingNone(w);
    } else {
      PredecessorIsCommitted(w);
      if RecoveryReply(w).Ok? {
        PendingReady(w);
      }
    }
  }

  lemma PendingNone(w: World)
    requires PendingId(w.rows) == 0
    ensures forall k :: 0 <= k < |w.rows| ==> !InFlight(w.rows[k].status)
  {
  }

  lemma PendingReady(w: World)
    requires Inv(w) && PendingId(w.rows) != 0 && RecoveryReply(w).Ok?
    ensures Ready(RecoveryWorld(w)) && RecoveryWorld(w).rows == Settle(w).rows
  {
    PendingIsNewest(w);
    PredecessorIsCommitted(w);
    SnapshotsAlwaysVerify(w, |w.rows|);
    var n := |w.rows|;
    var script := if Published(w) then w.rows[n - 1].checksum else w.rows[n - 1].sum.previous.value.policySum;
    var t := w.(kernel := Established(w.kernel, script));
    if Published(w) {
      PreparedHasHash(w);
    }
    QuietKeepsInv(w, t);
    hide Inv, PendingBelow, LatestBelow;
    SettledIsReady(w, t, Settle(t));
  }

  /**
   Recovery may be cut anywhere and run again: from any world v that a recovery started in u can have
   reached, a calm run ends ready with the same rows, the same hashes, the same pointer and a kernel
   with the same fingerprint as a calm run from u.
   */
  lemma RecoveryMayBeRerun(u: World, v: World)
    requires Inv(u) && Inv(v) && Decides(u, v) && RecoveryReply(u).Ok?
    ensures RecoveryReply(v).Ok?
    ensures var x, y := RecoveryWorld(u), RecoveryWorld(v);
      && Ready(x) && Ready(y)
      && x.rows == y.rows && x.pointer == y.pointer && x.observed == y.observed
      && x.kernel.Fingerprint() == y.kernel.Fingerprint()
  {
    RecoversExactly(u);
    SettleAgain(u, v);
    RecoversExactly(v);
    RecoveryKeeps(u);
    RecoveryKeeps(v);
  }

  /**
   The same where a first generation is being removed, which recovery reports as a refusal: cut anywhere
   and run again, with its tables already gone or not, its row already marked or not, the rerun ends with
   the same rows and hashes, no pointer and bare tables.
   */
  lemma RemovalMayBeRerun(u: World, v: World)
    requires Inv(u) && Inv(v) && Decides(u, v) && OnlyRemoves(u, v)
    requires PendingId(u.rows) != 0 && RecoveryReply(u) == Err(FirstRolledBack)
    ensures RecoveryReply(v) == Err(FirstRolledBack) || (RecoveryReply(v) == Err(NoPointer) && v.rows != u.rows)
    ensures var x, y := RecoveryWorld(u), RecoveryWorld(v);
      && x.rows == y.rows == Settle(u).rows && x.pointer == y.pointer == None
      && x.observed == y.observed && x.kernel == y.kernel == Bare
  {
    PendingIsNewest(u);
    PendingIsNewest(v);
    PredecessorIsCommitted(u);
    hide Inv, LatestBelow, PendingBelow;
    assert u.pointer.None? && FirstRemovable(u) && Due(u);
    if v.rows != u.rows {
      assert Restored(v);
    }
  }

  /** A reboot makes whatever is in flight due, because its row names an earlier boot. */
  lemma RebootMakesDue(w: World, boot: nat)
    requires Inv(w) && w.boot < boot
    ensures var v := Perform(w, Reboot(boot)); PendingId(v.rows) == 0 || Due(v)
  {
    PendingIsNewest(w);
    if |w.rows| > 0 {
      assert RowOk(w, |w.rows|);
    }
  }

  /** The same when what cut the recovery was a power failure: the rerun starts from bare tables. */
  lemma RecoveryMayBeRerunAfterReboot(u: World, v: World, boot: nat)
    requires Inv(u) && Inv(v) && Decides(u, v) && RecoveryReply(u).Ok? && v.boot < boot
    ensures var z := Perform(v, Reboot(boot)); var x, y := RecoveryWorld(u), RecoveryWorld(z);
      && RecoveryReply(z).Ok? && Ready(y)
      && x.rows == y.rows && x.pointer == y.pointer && x.observed == y.observed
      && x.kernel.Fingerprint() == y.kernel.Fingerprint()
  {
    RebootKeepsDecision(v, boot);
    SettleAgain(u, v);
    RecoversExactly(u);
    hide Inv, Decides, RecoveryReply, RecoveryWorld, Settle, HasGeneration, Due, Ready, PendingBelow;
    var z := Perform(v, Reboot(boot));
    RecoversExactly(z);
    RecoveryKeeps(u);
    RecoveryKeeps(z);
    DecidedSame(u, v);
    ReadySame(RecoveryWorld(u), RecoveryWorld(z));
  }

  lemma RebootKeepsDecision(v: World, boot: nat)
    requires Inv(v) && v.boot < boot
    ensures var z := Perform(v, Reboot(boot));
      && Inv(z) && z.pointer == v.pointer && z.observed == v.observed
      && Settle(z).rows == Settle(v).rows && HasGeneration(z) == HasGeneration(v)
      && (PendingId(z.rows) == 0 || Due(z))
  {
    StepKeepsInv(v, Reboot(boot));
    RebootMakesDue(v, boot);
    hide Inv;
  }

  lemma DecidedSame(u: World, v: World)
    requires Decides(u, v)
    ensures u.pointer == v.pointer && u.observed == v.observed
  {
  }

  lemma ReadySame(x: World, y: World)
    requires Ready(x) && Ready(y) && x.pointer == y.pointer && x.observed == y.observed
    ensures x.kernel.Fingerprint() == y.kernel.Fingerprint()
  {
  }

  lemma RecoveryKeeps(w: World)
    ensures RecoveryWorld(w).pointer == w.pointer && RecoveryWorld(w).observed == w.observed
  {
  }

  /** Deciding again changes nothing, and what was due stays due. */
  lemma SettleAgain(u: World, v: World)
    requires Inv(u) && Inv(v) && Decides(u, v)
    ensures Settle(v).rows == Settle(u).rows
    ensures HasGeneration(v) == HasGeneration(u)
    ensures PendingId(u.rows) == 0 || Due(u) ==> PendingId(v.rows) == 0 || Due(v)
  {
    PendingIsNewest(u);
    PendingIsNewest(v);
    if v.rows != u.rows {
      DecidedHasGeneration(u, v);
      hide Inv, LatestBelow, PendingBelow;
    } else {
      hide Inv, LatestBelow, PendingBelow;
    }
  }

  lemma DecidedHasGeneration(u: World, v: World)
    requires Inv(u) && Inv(v) && Decides(u, v) && v.rows != u.rows
    ensures HasGeneration(v) == HasGeneration(u)
    ensures PendingId(v.rows) == 0
  {
    var n := |u.rows|;
    PendingIsNewest(u);
    PendingIsNewest(v);
    SettledNewest(u);
    hide Inv, LatestBelow, PendingBelow, PointerAt, Restored, Settle;
    LatestFrame(u.rows, v.rows, n - 1);
    LatestOf(u.rows);
    LatestOf(v.rows);
  }

  lemma SettledNewest(u: World)
    requires Settle(u).rows != u.rows
    ensures var n, v := |u.rows|, Settle(u).rows;
      && n == |v| > 0 && (forall k :: 0 <= k < n - 1 ==> v[k] == u.rows[k]) && InFlight(u.rows[n - 1].status)
      && v[n - 1].status == if Published(u) then Committed else RolledBack
  {
  }

  lemma LatestOf(rows: seq<Row>)
    requires |rows| > 0
    ensures LastKnownGood(rows) == if rows[|rows| - 1].status.Committed? then |rows| else LatestBelow(rows, |rows| - 1)
  {
  }

  // ---- A crash inside a save ----

  /**
   A file that no row owns and no save can match: a snapshot of the next id from an earlier boot, or one
   that names another predecessor than the latest committed generation.
   */
  predicate Orphaned(w: World, id: nat) {
    && id == |w.rows| + 1 && id in w.snapshots
    && (w.snapshots[id].boot < w.boot || (PendingId(w.rows) == 0 && w.snapshots[id].previous != PointerAt(w.rows, |w.rows|)))
  }

  lemma OrphanedStep(w: World, a: Action, id: nat)
    requires Inv(w) && Enabled(w, a) && Orphaned(w, id)
    ensures Orphaned(Perform(w, a), id)
  {
    PendingIsNewest(w);
    var v := Perform(w, a);
    if v.rows != w.rows {
      assert PendingId(w.rows) != 0;
    }
    hide Inv, LatestBelow;
  }

  /**
   A crash between the snapshot file and the row leaves such a file. Nothing removes it, no row with its
   id can ever be written, and since the next id is the highest row's plus one, every later apply is
   refused, whatever else is done.
   */
  lemma {:induction false} OrphanBlocksEveryApply(w: World, log: seq<Action>, a: Artifact)
    requires Inv(w) && Allowed(w, log) && Orphaned(w, a.generation)
    ensures Orphaned(Replay(w, log), a.generation) && |Replay(w, log).rows| == |w.rows|
    ensures ApplyReply(Replay(w, log), a).Err?
    ensures GuardReply(Replay(w, log)).Ok? ==> ApplyReply(Replay(w, log), a) == Err(FileConflict)
    decreases |log|
  {
    if log != [] {
      StepKeepsInv(w, log[0]);
      OrphanedStep(w, log[0], a.generation);
      hide Inv, Orphaned, Enabled, Perform, ApplyReply, GuardReply;
      OrphanBlocksEveryApply(Perform(w, log[0]), log[1..], a);
    }
  }

  /** Whatever a controller has done since a file was orphaned, its id has no row. */
  lemma OrphanNeverGetsRow(m: Manager, k: nat, a: Artifact)
    requires m.Valid() && k <= |m.log| && Allowed(m.origin, m.log[..k])
    requires Orphaned(Replay(m.origin, m.log[..k]), a.generation)
    ensures |m.world.rows| < a.generation && ApplyReply(m.world, a).Err?
  {
    var w := Replay(m.origin, m.log[..k]);
    RunKeepsInv(m.origin, m.log[..k]);
    ReplayPrefix(m.origin, m.log, k);
    hide Inv, Orphaned, ApplyReply;
    OrphanBlocksEveryApply(w, m.log[k..], a);
    assert Orphaned(w, a.generation) ==> a.generation == |w.rows| + 1;
  }

  function Fresh(): World {
    World([], map[], map[], map[], None, Bare, 0, 1)
  }

  /** The run that shows it: save the two files of generation 1, die, reboot. */
  lemma OrphanExample(script: string)
    ensures var log := [WriteScript(1, script), WriteSnapshot(Snapshot(1, script, None, 1)), Reboot(2)];
      && Inv(Fresh()) && Allowed(Fresh(), log)
      && ApplyReply(Replay(Fresh(), log), Artifact(1, script)) == Err(FileConflict)
      && ApplyReply(Fresh(), Artifact(1, script)).Ok?
  {
    var w0 := Fresh();
    var a0, a1, a2 := WriteScript(1, script), WriteSnapshot(Snapshot(1, script, None, 1)), Reboot(2);
    assert Allowed(w0, []);
    ReplayAppend(w0, [], a0);
    assert [] + [a0] == [a0];
    ReplayAppend(w0, [a0], a1);
    assert [a0] + [a1] == [a0, a1];
    ReplayAppend(w0, [a0, a1], a2);
    assert [a0, a1] + [a2] == [a0, a1, a2];
  }

  // ---- Any history ----

  datatype Request =
    | AskApply(artifact: Artifact, safe: bool, ttl: nat)
    | AskCommit(id: nat)
    | AskRollback(id: nat)
    | TimerRuns
    | BootRecovery
    | AskReconcile(repair: bool)
    | ProcessRestarts
    | HostReboots(later: nat)
    | OutsideWrite(kernel: Kernel)

  predicate FromOutside(q: Request) {
    q.HostReboots? || q.OutsideWrite?
  }

  /** Nothing, or a refusal that is not one of the ambiguous ones. */
  predicate Explained(why: Option<Refusal>) {
    why.Some? ==> !Impossible(why.value)
  }

  function WhyOf<T>(r: Reply<T>): Option<Refusal> {
    if r.Ok? then None else Some(r.why)
  }

  /** What every request keeps: the log is a run and kept generations stay kept. */
  twostate predicate Served(m: Manager, new why: Option<Refusal>)
    reads m
  {
    m.Valid() && old(m.log) <= m.log && old(Abs(m.world)).kept <= Abs(m.world).kept && Explained(why)
  }

  /** One request, with whatever faults the plan holds. */
  method Serve(m: Manager, q: Request) returns (why: Option<Refusal>)
    requires m.Valid() && (m.alone ==> !FromOutside(q))
    modifies m
    ensures Served(m, why)
  {
    match q
    case AskApply(a, safe, ttl) => why := ServeApply(m, a, safe, ttl);
    case AskCommit(id) => why := ServeCommit(m, id);
    case AskRollback(id) => why := ServeRollback(m, id);
    case TimerRuns => why := ServeTimer(m);
    case BootRecovery => why := ServeBoot(m);
    case AskReconcile(repair) => why := ServeReconcile(m, repair);
    case ProcessRestarts => m.firstUse := false; why := None;
    case HostReboots(later) => ServeOutside(m, Reboot(m.world.boot + 1 + later)); why := None;
    case OutsideWrite(kernel) => ServeOutside(m, Interfere(kernel)); why := None;
  }

  method ServeApply(m: Manager, a: Artifact, safe: bool, ttl: nat) returns (why: Option<Refusal>)
    requires m.Valid()
    modifies m
    ensures Served(m, why)
  {
    hide Inv, Allowed, Replay, Abs, AppliedAs, ApplyReply;
    // Ids are handed out as the highest id plus one.
    if !(0 < a.generation <= |m.world.rows| + 1) {
      return None;
    }
    var r := m.Apply(a, safe, ttl);
    why := WhyOf(r);
  }

  method ServeCommit(m: Manager, id: nat) returns (why: Option<Refusal>)
    requires m.Valid()
    modifies m
    ensures Served(m, why)
  {
    hide Inv, Allowed, Replay, Abs;
    var r := m.Commit(id);
    why := WhyOf(r);
  }

  method ServeRollback(m: Manager, id: nat) returns (why: Option<Refusal>)
    requires m.Valid()
    modifies m
    ensures Served(m, why)
  {
    hide Inv, Allowed, Replay, Abs;
    var r := m.RollbackLocked(id);
    why := WhyOf(r);
  }

  method ServeTimer(m: Manager) returns (why: Option<Refusal>)
    requires m.Valid()
    modifies m
    ensures Served(m, why)
  {
    hide Inv, Allowed, Replay, Abs;
    var r := m.RollbackExpired();
    why := WhyOf(r);
  }

  method ServeBoot(m: Manager) returns (why: Option<Refusal>)
    requires m.Valid()
    modifies m
    ensures Served(m, why)
  {
    hide Inv, Allowed, Replay, Abs;
    var r := m.RecoverAtBoot();
    why := WhyOf(r);
  }

  method ServeReconcile(m: Manager, repair: bool) returns (why: Option<Refusal>)
    requires m.Valid()
    modifies m
    ensures Served(m, why)
  {
    hide Inv, Allowed, Replay, Abs;
    var r := m.Reconcile(repair);
    why := WhyOf(r);
  }

  method ServeOutside(m: Manager, a: Action)
    requires m.Valid() && !m.alone
    requires (a.Reboot? && m.world.boot < a.boot) || a.Interfere?
    modifies m
    ensures Served(m, None)
  {
    m.Step(a);
    hide Inv, Allowed, Replay;
    m.firstUse := false;
  }

  /** Every request of a history, in order; no ambiguous state is ever reported. */
  method History(m: Manager, requests: seq<Request>) returns (refusals: seq<Refusal>)
    requires m.Valid() && (m.alone ==> forall i :: 0 <= i < |requests| ==> !FromOutside(requests[i]))
    modifies m
    ensures m.Valid() && old(m.log) <= m.log && old(Abs(m.world)).kept <= Abs(m.world).kept
    ensures forall i :: 0 <= i < |refusals| ==> !Impossible(refusals[i])
  {
    hide Inv, Allowed, Replay, Abs;
    refusals := [];
    for i := 0 to |requests|
      invariant m.Valid() && old(m.log) <= m.log && old(Abs(m.world)).kept <= Abs(m.world).kept
      invariant forall k :: 0 <= k < |refusals| ==> !Impossible(refusals[k])
    {
      var why := Serve(m, requests[i]);
      if why.Some? {
        refusals := refusals + [why.value];
      }
    }
  }

  /** Tables that were there before the product first succeeded are still there, whatever failed or died. */
  lemma FirstUseOwnership(m: Manager)
    requires m.Valid() && m.alone && m.origin.kernel.Altered? && !OwnsTables(m.origin)
    ensures m.world.kernel == m.origin.kernel
  {
    ForeignTablesSurvive(m.origin, m.log);
  }

  /** Whatever a controller has done since its origin, a candidate is committed exactly when it was published. */
  lemma HistoryIsAtomic(m: Manager, id: nat)
    requires m.Valid() && |m.origin.rows| < id <= |m.world.rows|
    ensures var status := m.world.rows[id - 1].status;
      && (!InFlight(status) ==> (status.Committed? <==> Publish(id) in m.log))
      && (!InFlight(status) ==> (status.RolledBack? <==> Publish(id) !in m.log))
      && (InFlight(status) ==> id == |m.world.rows|)
  {
    CommitIsAtomic(m.origin, m.log, id);
    PendingIsNewest(m.world);
  }
}
