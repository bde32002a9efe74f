/**
 The controller that drives the generation protocol. Every device call, a database statement, a
 file write, an nft run, a guard, takes the next event of a fault plan: it may work, be refused,
 be lost after taking effect, or be the last thing the process does. The methods below are the
 controller's operations with every such branch; each one's writes go to the ghost log, and the
 log is a run of the protocol.
 */
module GenerationManager {
  import opened Wrappers
  import opened Generations
  import opened CommitMachine

  /** What the environment does to one device call. */
  datatype Fault =
    | Fine
    | Refused     // nothing attempted, an error reported
    | Botched     // attempted without effect, an error reported
    | Lost        // took effect, an error reported
    | DiesBefore  // the process dies without the effect
    | DiesAfter   // the process dies right after the effect

  datatype Event = Event(fault: Fault, elapse: nat)

  datatype Outcome = Done | Failed | Uncertain | Dead

  predicate Fatal(f: Fault) {
    f.DiesBefore? || f.DiesAfter?
  }

  /** One call fails, and it is the last with any event of its own; the process lives on. */
  predicate FailsOnce(plan: seq<Event>) {
    && |plan| > 0 && !plan[|plan| - 1].fault.Fine? && !Fatal(plan[|plan| - 1].fault)
    && forall i :: 0 <= i < |plan| - 1 ==> plan[i].fault.Fine?
  }

  datatype Refusal =
    | DeviceError | ProcessDied
    | StillPending | ForeignTables | FileConflict | IdTaken
    | NotPending | NotApplied | Expired | IntegrityLost
    | UnknownGeneration | AlreadyCommitted | AlreadyPublished | UnverifiedTables
    | StillLive | NoPointer | AmbiguousFirst | FirstRolledBack | NothingCommitted
    // The states the source calls ambiguous; none of them is ever reported.
    | BadSnapshot | AmbiguousPointer | BadPredecessor | NotCommitted | NotLatest
    | NoFingerprint | FingerprintMismatch

  predicate Impossible(why: Refusal) {
    || why.BadSnapshot? || why.AmbiguousPointer? || why.BadPredecessor? || why.NotCommitted?
    || why.NotLatest? || why.NoFingerprint? || why.FingerprintMismatch?
  }

  datatype Reply<+T> = Ok(value: T) | Err(why: Refusal)

  datatype Artifact = Artifact(generation: nat, script: string)

  datatype Recovery = RestoredCommitted(generation: nat) | FinalizedPrepared(generation: nat) | RolledBackTo(generation: nat)

  /** v is u a little later. */
  predicate Later(u: World, v: World) {
    v == u.(clock := v.clock) && u.clock <= v.clock
  }

  function ErrorOf(o: Outcome): Refusal {
    if o.Dead? then ProcessDied else DeviceError
  }

  // ---- What the operations compute, as functions of the world they start in ----

  /** The in-flight generation is decided by the pointer alone. */
  function Settle(w: World): World {
    var n := |w.rows|;
    if n == 0 || !InFlight(w.rows[n - 1].status) then w
    else if Published(w) then SetRow(w, n, w.rows[n - 1].(status := Committed, deadline := None))
    else SetRow(w, n, w.rows[n - 1].(status := RolledBack))
  }

  /** The kernel after a generation is verified in place, or reinstalled. */
  function Established(k: Kernel, script: string): Kernel {
    if k.Intact() && k.Fingerprint() == Some(PrintOf(Generation(script))) then k else Ours(Generation(script))
  }

  /** Whether rollback may decide the row without touching tables it cannot prove are the product's. */
  predicate UnverifiedFirst(w: World)
    requires |w.rows| > 0
  {
    var r := w.rows[|w.rows| - 1];
    r.sum.previous.None? && r.status.Pending? && w.kernel.Existing() > 0
  }

  function RollbackReply(w: World, id: nat): Reply<()> {
    if !(1 <= id <= |w.rows|) then Err(UnknownGeneration)
    else match w.rows[id - 1].status
      case RolledBack => Ok(())
      case Committed => Err(AlreadyCommitted)
      case _ =>
        if Published(w) then Err(AlreadyPublished)
        else if UnverifiedFirst(w) then Err(UnverifiedTables)
        else Ok(())
  }

  function RollbackWorld(w: World, id: nat): World {
    if !(1 <= id <= |w.rows|) || !InFlight(w.rows[id - 1].status) then w
    else if Published(w) then Settle(w)
    else if UnverifiedFirst(w) then w
    else
      var p := w.rows[|w.rows| - 1].sum.previous;
      Settle(w).(kernel := if p.Some? then Ours(Generation(p.value.policySum)) else Bare)
  }

  /** The comparisons between a row, its immutable files and its recorded predecessor. */
  predicate SnapshotMatches(w: World, id: nat, s: Snapshot, prepared: bool)
    requires 1 <= id <= |w.rows|
  {
    var g := w.rows[id - 1];
    && g.sum == PointerTo(s).snapshotSum && g.checksum == s.script && g.boot == s.boot && s.generation == id
    && id in w.scripts && w.scripts[id] == g.checksum && w.scripts[id] == s.script
    && match s.previous
       case None => g.previous.None? && (prepared ==> g.prior.None?)
       case Some(p) =>
         && g.previous == Some(p.generation)
         && 1 <= p.generation <= |w.rows|
         && w.rows[p.generation - 1].checksum == p.policySum
         && w.rows[p.generation - 1].sum == p.snapshotSum
         && (prepared ==> g.prior == Some(p))
  }

  /** The snapshot file of a row, when it is present and agrees with everything else on record. */
  predicate SnapshotVerified(w: World, id: nat, prepared: bool)
    requires 1 <= id <= |w.rows|
  {
    id in w.snapshots && SnapshotMatches(w, id, w.snapshots[id], prepared)
  }

  /** In every reachable world every row agrees with its immutable files and its predecessor. */
  lemma SnapshotsAlwaysVerify(w: World, id: nat)
    requires Inv(w) && 1 <= id <= |w.rows|
    ensures SnapshotVerified(w, id, w.rows[id - 1].status.Prepared?)
    ensures SnapshotVerified(w, id, false)
    ensures w.snapshots[id] == w.rows[id - 1].sum
    ensures w.rows[id - 1].sum.generation == id && w.rows[id - 1].sum.script == w.rows[id - 1].checksum
    ensures id in w.scripts && w.scripts[id] == w.rows[id - 1].checksum && w.rows[id - 1].sum.boot == w.rows[id - 1].boot
    ensures match w.rows[id - 1].sum.previous
      case None => w.rows[id - 1].previous.None? && forall k :: 0 <= k < id - 1 ==> !w.rows[k].status.Committed?
      case Some(p) =>
        && w.rows[id - 1].previous == Some(p.generation) && 1 <= p.generation < id
        && w.rows[p.generation - 1].status.Committed? && (forall k :: p.generation <= k < id - 1 ==> !w.rows[k].status.Committed?)
        && p == Pointer(p.generation, w.rows[p.generation - 1].sum, w.rows[p.generation - 1].checksum)
  {
    assert RowOk(w, id);
    var p := LatestBelow(w.rows, id - 1);
    if p != 0 {
      assert RowOk(w, p);
    }
  }

  /** The predecessor of an in-flight generation is the latest committed generation, which has a hash. */
  lemma PredecessorIsCommitted(w: World)
    requires Inv(w) && |w.rows| > 0 && InFlight(w.rows[|w.rows| - 1].status)
    ensures var g := w.rows[|w.rows| - 1]; var p := LastKnownGood(w.rows);
      && p < |w.rows|
      && g.sum.previous == PointerAt(w.rows, |w.rows|)
      && (g.previous == if p == 0 then None else Some(p))
      && (p != 0 ==>
        && w.rows[p - 1].status.Committed? && p in w.observed
        && g.sum.previous == Some(PointerTo(w.rows[p - 1].sum))
        && w.rows[p - 1].sum.script == w.rows[p - 1].checksum
        && w.observed[p] == PrintOf(Generation(w.rows[p - 1].checksum)))
      && (!Published(w) ==> w.pointer == g.sum.previous)
      && (g.status.Pending? ==> |w.rows| !in w.observed)
  {
    assert RowOk(w, |w.rows|);
    var p := LastKnownGood(w.rows);
    if p != 0 {
      assert RowOk(w, p);
    }
  }

  /** A newest row rolled back since u leaves in the kernel what ran before that generation. */
  predicate Undone(u: World, v: World) {
    |v.rows| > 0 && v.rows != u.rows && v.rows[|v.rows| - 1].status.RolledBack? ==> Restored(v)
  }

  /**
   A roll-back leaves everything alone but the kernel, the clock and the newest row's status, and that
   row is not marked before its predecessor is back.
   */
  predicate Decides(u: World, v: World) {
    && (v.rows == u.rows || v.rows == Settle(u).rows)
    && Undone(u, v)
    && v == u.(rows := v.rows, kernel := v.kernel, clock := v.clock)
    && u.clock <= v.clock
  }

  /** v is u later, with another kernel perhaps. */
  predicate KernelOnly(u: World, v: World) {
    v == u.(kernel := v.kernel, clock := v.clock) && u.clock <= v.clock
  }

  lemma NewestInFlight(w: World, id: nat)
    requires Inv(w)
    ensures 1 <= id <= |w.rows| && InFlight(w.rows[id - 1].status) ==> id == |w.rows|
    ensures 1 <= id <= |w.rows| && InFlight(w.rows[id - 1].status) <==> PendingId(w.rows) == id && id != 0
  {
    PendingIsNewest(w);
  }

  lemma NothingOwned(w: World)
    requires Inv(w) && PendingId(w.rows) == 0 && LastKnownGood(w.rows) == 0
    ensures !OwnsTables(w)
  {
  }

  lemma InsertStaysUnowned(w: World, id: nat, deadline: Option<int>)
    requires Enabled(w, InsertRow(id, deadline)) && !OwnsTables(w)
    ensures !OwnsTables(Perform(w, InsertRow(id, deadline)))
  {
    LatestFrame(w.rows, Perform(w, InsertRow(id, deadline)).rows, |w.rows|);
  }

  /** Rolling back never makes the product an owner of tables it did not own. */
  lemma UnownedStays(w: World, id: nat)
    requires Inv(w) && Enabled(w, MarkRolledBack(id)) && !OwnsTables(w)
    ensures !OwnsTables(Perform(w, MarkRolledBack(id)))
  {
    LatestFrame(w.rows, Perform(w, MarkRolledBack(id)).rows, id - 1);
  }

  /**
   What a roll-back from u to v with reply r comes to: success is exactly the restored and decided
   world; a calm run gives exactly the expected reply and world; and no refusal is an ambiguous one.
   */
  predicate RolledBackAs(u: World, v: World, id: nat, r: Reply<()>, calm: bool) {
    && Decides(u, v)
    && (r.Err? ==> !Impossible(r.why))
    && (r.Ok? ==> RollbackReply(u, id).Ok? && Later(RollbackWorld(u, id), v))
    && (calm ==> r == RollbackReply(u, id) && v == RollbackWorld(u, id))
  }

  lemma RolledBackLater(u: World, t: World, v: World, id: nat, r: Reply<()>, calm: bool, still: bool)
    requires Later(u, t) && (calm ==> still && t == u) && RolledBackAs(t, v, id, r, still)
    ensures RolledBackAs(u, v, id, r, calm)
  {
  }

  lemma RolledBackRefused(u: World, v: World, id: nat, why: Refusal)
    requires KernelOnly(u, v) && !Impossible(why)
    ensures RolledBackAs(u, v, id, Err(why), false)
  {
  }

  lemma RolledBackUnverified(u: World, v: World, id: nat, calm: bool)
    requires Later(u, v) && (calm ==> v == u)
    requires Newest(u, id) && InFlight(u.rows[id - 1].status) && !Published(u) && UnverifiedFirst(u)
    ensures RolledBackAs(u, v, id, Err(UnverifiedTables), calm)
  {
  }

  lemma RolledBackDone(u: World, t: World, v: World, id: nat, r: Reply<()>, calm: bool)
    requires Newest(u, id) && InFlight(u.rows[id - 1].status) && !Published(u) && !UnverifiedFirst(u)
    requires KernelOnly(u, t) && (calm ==> t.clock == u.clock)
    requires t.kernel == RollbackWorld(u, id).kernel
    requires Decides(t, v) && v.kernel == t.kernel
    requires r.Err? ==> !Impossible(r.why)
    requires r.Ok? ==> Later(Settle(t), v)
    requires calm ==> r == Ok(()) && v == Settle(t)
    ensures RolledBackAs(u, v, id, r, calm)
  {
  }

  lemma ConcludedRow(u: World, v: World, id: nat)
    requires Enabled(u, MarkRolledBack(id)) && Restored(u)
    requires Later(u, v) || Later(Perform(u, MarkRolledBack(id)), v)
    ensures Decides(u, v) && v.kernel == u.kernel
    ensures Perform(u, MarkRolledBack(id)) == Settle(u)
  {
  }

  lemma RolledBackAlready(u: World, v: World, id: nat, calm: bool)
    requires Later(u, v) && (calm ==> v == u)
    requires 1 <= id <= |u.rows| ==> !InFlight(u.rows[id - 1].status)
    ensures RolledBackAs(u, v, id, RollbackReply(u, id), calm)
  {
  }

  // ---- Commit ----

  function PreparedWorld(w: World, id: nat): World
    requires 1 <= id <= |w.rows|
  {
    SetRow(w, id, w.rows[id - 1].(status := Prepared, prior := w.rows[id - 1].sum.previous))
  }

  /** A finished commit: the generation is published and its row is committed. */
  function CommitWorld(w: World, id: nat): World
    requires 1 <= id <= |w.rows|
  {
    Settle(PreparedWorld(w, id).(pointer := Some(PointerTo(w.rows[id - 1].sum))))
  }

  predicate PastDeadline(w: World, id: nat)
    requires 1 <= id <= |w.rows|
  {
    w.rows[id - 1].deadline.Some? && w.rows[id - 1].deadline.value <= w.clock
  }

  predicate IntegrityHolds(w: World, id: nat) {
    id in w.observed && w.kernel.Fingerprint() == Some(w.observed[id])
  }

  function CommitReply(w: World, id: nat): Reply<()> {
    if id == 0 || PendingId(w.rows) != id then Err(NotPending)
    else if !w.rows[id - 1].status.Applied? then Err(NotApplied)
    else if PastDeadline(w, id) then Err(Expired)
    else if !IntegrityHolds(w, id) then Err(IntegrityLost)
    else Ok(())
  }

  function CommitResult(w: World, id: nat): World {
    match CommitReply(w, id)
    case Ok(_) => CommitWorld(w, id)
    case Err(why) => if why.Expired? || why.IntegrityLost? then RollbackWorld(w, id) else w
  }

  /** Only the newest row, the pointer, the kernel and the clock may move, and the row keeps its identity. */
  predicate NewestMoves(u: World, v: World) {
    && v == u.(rows := v.rows, pointer := v.pointer, kernel := v.kernel, clock := v.clock)
    && u.clock <= v.clock
    && |v.rows| == |u.rows|
    && (forall k :: 0 <= k < |u.rows| - 1 ==> v.rows[k] == u.rows[k])
    && (u.rows == v.rows || (|u.rows| > 0 && v.rows[|u.rows| - 1].sum == u.rows[|u.rows| - 1].sum))
    && Undone(u, v)
  }

  /**
   What a commit from u to v with reply r comes to: success is exactly the published and finalized
   world, reached only with the deadline still ahead when it began; a calm run gives exactly the
   expected reply and world; and no refusal is an ambiguous one.
   */
  predicate CommittedAs(u: World, v: World, id: nat, r: Reply<()>, calm: bool) {
    && NewestMoves(u, v)
    && (r.Err? ==> !Impossible(r.why))
    && (r.Ok? ==> CommitReply(u, id).Ok? && Later(CommitWorld(u, id), v))
    && (calm ==> r == CommitReply(u, id) && v == CommitResult(u, id))
  }

  lemma CommittedLater(u: World, t: World, v: World, id: nat, r: Reply<()>, calm: bool)
    requires Later(u, t) && (calm ==> t == u) && CommittedAs(t, v, id, r, calm)
    ensures CommittedAs(u, v, id, r, calm)
  {
  }

  lemma CommittedRefused(u: World, v: World, id: nat, why: Refusal, calm: bool)
    requires Later(u, v) && !Impossible(why)
    requires calm ==> v == u && CommitReply(u, id) == Err(why) && !why.Expired? && !why.IntegrityLost?
    ensures CommittedAs(u, v, id, Err(why), calm)
  {
  }

  /** The second half of a commit, from the prepared row on. */
  predicate CommitPreparedAs(u: World, v: World, id: nat, r: Reply<()>, calm: bool)
    requires Newest(u, id)
  {
    && NewestMoves(u, v)
    && (r.Err? ==> !Impossible(r.why))
    && (r.Ok? ==> !PastDeadline(u, id) && Later(Settle(u.(pointer := Some(PointerTo(u.rows[id - 1].sum)))), v))
    && (calm && !PastDeadline(u, id) ==> r == Ok(()) && v.clock == u.clock)
    && (calm && PastDeadline(u, id) ==> v == RollbackWorld(u, id) && r == if RollbackReply(u, id).Ok? then Err(Expired) else RollbackReply(u, id))
  }

  lemma PreparedStopped(u: World, v: World, id: nat, why: Refusal)
    requires Newest(u, id) && Later(u, v) && !Impossible(why)
    ensures CommitPreparedAs(u, v, id, Err(why), false)
  {
  }

  lemma PreparedExpired(u: World, t: World, v: World, id: nat, q: Reply<()>, calm: bool, still: bool)
    requires Newest(u, id) && u.rows[id - 1].status.Prepared? && Later(u, t) && (calm ==> still && t == u) && PastDeadline(t, id)
    requires RolledBackAs(t, v, id, q, still)
    ensures CommitPreparedAs(u, v, id, if q.Ok? then Err(Expired) else q, calm)
  {
  }

  lemma PreparedPublished(u: World, t: World, v: World, id: nat, r: Reply<()>, calm: bool)
    requires Newest(u, id) && Later(u, t) && !PastDeadline(t, id) && NewestMoves(t, v)
    requires r.Ok? ==> Later(Settle(t.(pointer := Some(PointerTo(t.rows[id - 1].sum)))), v)
    requires r.Err? ==> !Impossible(r.why)
    requires calm ==> t == u && r == Ok(()) && v.clock == u.clock
    ensures CommitPreparedAs(u, v, id, r, calm)
  {
  }

  /** A commit of an applied generation. */
  predicate CommitLockedAs(u: World, v: World, id: nat, r: Reply<()>, calm: bool)
    requires Newest(u, id)
  {
    && NewestMoves(u, v)
    && (r.Err? ==> !Impossible(r.why))
    && (r.Ok? ==> !PastDeadline(u, id) && Later(CommitWorld(u, id), v))
    && (calm && !PastDeadline(u, id) ==> r == Ok(()) && v == CommitWorld(u, id))
    && (calm && PastDeadline(u, id) ==>
      && v == RollbackWorld(PreparedWorld(u, id), id)
      && r == if RollbackReply(PreparedWorld(u, id), id).Ok? then Err(Expired) else RollbackReply(PreparedWorld(u, id), id))
  }

  lemma CommitLockedFinished(u: World, t: World, v: World, id: nat, r: Reply<()>, calm: bool, still: bool)
    requires Newest(u, id) && Later(PreparedWorld(u, id), t) && (calm ==> still && t == PreparedWorld(u, id))
    requires CommitPreparedAs(t, v, id, r, still)
    ensures CommitLockedAs(u, v, id, r, calm)
  {
  }

  lemma CommitLockedStopped(u: World, v: World, id: nat, why: Refusal)
    requires Newest(u, id) && (Later(u, v) || Later(PreparedWorld(u, id), v)) && !Impossible(why)
    ensures CommitLockedAs(u, v, id, Err(why), false)
  {
  }

  lemma CommittedNotApplied(u: World, v: World, id: nat, calm: bool)
    requires Later(u, v) && (calm ==> v == u)
    requires id == 0 || PendingId(u.rows) != id || !u.rows[id - 1].status.Applied?
    ensures CommittedAs(u, v, id, if id == 0 || PendingId(u.rows) != id then Err(NotPending) else Err(NotApplied), calm)
  {
  }

  lemma CommittedByLocked(u: World, t: World, v: World, id: nat, r: Reply<()>, calm: bool)
    requires Inv(u) && Newest(u, id) && u.rows[id - 1].status.Applied?
    requires !PastDeadline(u, id) && IntegrityHolds(u, id)
    requires Later(u, t) && (calm ==> t == u) && CommitLockedAs(t, v, id, r, calm)
    ensures CommittedAs(u, v, id, r, calm)
  {
    PendingIsNewest(u);
  }

  /** A commit that turned into a roll-back: the deadline had passed, or the kernel had changed. */
  lemma CommittedByRollback(u: World, t: World, v: World, id: nat, q: Reply<()>, why: Refusal, calm: bool)
    requires Inv(u) && Newest(u, id) && u.rows[id - 1].status.Applied?
    requires Later(u, t) && (calm ==> t == u) && RolledBackAs(t, v, id, q, calm)
    requires !Impossible(why) && (calm ==> CommitReply(u, id) == Err(why) && (why.Expired? || why.IntegrityLost?))
    ensures CommittedAs(u, v, id, if q.Ok? then Err(why) else q, calm)
  {
    assert !UnverifiedFirst(u) && !Published(u);
  }

  // ---- Recovery ----

  /** The tables are all there, carry every marker, and match the hash recorded for the generation. */
  predicate Matches(w: World, id: nat) {
    w.kernel.Intact() && IntegrityHolds(w, id)
  }

  /** What readiness promises. */
  predicate Ready(w: World) {
    && w.pointer.Some?
    && 1 <= w.pointer.value.generation <= |w.rows|
    && w.rows[w.pointer.value.generation - 1].status.Committed?
    && (forall k :: 0 <= k < |w.rows| ==> !InFlight(w.rows[k].status))
    && w.kernel.Intact() && w.pointer.value.generation in w.observed
    && w.kernel.Fingerprint() == Some(w.observed[w.pointer.value.generation])
  }

  /** A first generation whose tables can be proved to be its own, or which left none. */
  predicate FirstRemovable(w: World) {
    w.kernel.Existing() == 0 || (w.kernel.Existing() == OWNED_TABLES && Matches(w, |w.rows|))
  }

  /** Whether a recovery run may decide the in-flight generation now: prepared, from another boot, or expired. */
  predicate Due(w: World) {
    && |w.rows| > 0
    && var g := w.rows[|w.rows| - 1];
      g.status.Prepared? || g.boot != w.boot || (g.deadline.Some? && g.deadline.value <= w.clock)
  }

  /** What a recovery run decides about an in-flight generation. */
  function PendingReply(w: World): Reply<Recovery>
    requires |w.rows| > 0
  {
    var n := |w.rows|;
    var p := w.rows[n - 1].sum.previous;
    if Published(w) then Ok(FinalizedPrepared(n))
    else if !Due(w) then Err(StillLive)
    else if p.Some? then Ok(RolledBackTo(p.value.generation))
    else if FirstRemovable(w) then Err(FirstRolledBack)
    else Err(AmbiguousFirst)
  }

  function PendingWorld(w: World): World
    requires |w.rows| > 0
  {
    var n := |w.rows|;
    match PendingReply(w)
    case Ok(FinalizedPrepared(_)) => Settle(w).(kernel := Established(w.kernel, w.rows[n - 1].checksum))
    case Ok(_) => Settle(w).(kernel := Established(w.kernel, w.rows[n - 1].sum.previous.value.policySum))
    case Err(why) => if why.FirstRolledBack? then Settle(w).(kernel := Bare) else w
  }

  function RecoveryReply(w: World): Reply<Recovery> {
    if PendingId(w.rows) != 0 then PendingReply(w)
    else if w.pointer.None? then Err(NoPointer)
    else Ok(RestoredCommitted(w.pointer.value.generation))
  }

  function RecoveryWorld(w: World): World {
    if PendingId(w.rows) != 0 then PendingWorld(w)
    else if w.pointer.None? then w
    else w.(kernel := Established(w.kernel, w.pointer.value.policySum))
  }

  /** With no predecessor and nothing published, the kernel is untouched, or cleared where that is safe. */
  predicate OnlyRemoves(u: World, v: World) {
    u.pointer.None? ==> v.kernel == u.kernel || (FirstRemovable(u) && v.kernel == Bare)
  }

  /** What recovery of an in-flight generation from u to v with reply r comes to. */
  predicate PendingRecoveredAs(u: World, v: World, r: Reply<Recovery>, calm: bool)
    requires |u.rows| > 0
  {
    && Decides(u, v)
    && (r.Err? ==> !Impossible(r.why))
    && (r.Err? && r.why.StillLive? ==> !Due(u))
    && OnlyRemoves(u, v)
    && (r.Ok? ==> v.rows == Settle(u).rows && Ready(v) && (if Published(u) then r.value.FinalizedPrepared? else r.value.RolledBackTo?))
    && (calm ==> r == PendingReply(u) && v == PendingWorld(u))
  }

  predicate RecoveredAs(u: World, v: World, r: Reply<Recovery>, calm: bool) {
    && Decides(u, v) && OnlyRemoves(u, v)
    && (r.Err? ==> !Impossible(r.why))
    && (r.Ok? ==> v.rows == Settle(u).rows && Ready(v))
    && (calm ==> r == RecoveryReply(u) && v == RecoveryWorld(u))
  }

  lemma PreparedHasHash(w: World)
    requires Inv(w) && |w.rows| > 0 && w.rows[|w.rows| - 1].status.Prepared?
    ensures |w.rows| in w.observed && w.observed[|w.rows|] == PrintOf(Generation(w.rows[|w.rows| - 1].checksum))
  {
    assert RowOk(w, |w.rows|);
  }

  /** Settling a world whose kernel matches the surviving generation makes it ready. */
  lemma SettledIsReady(u: World, t: World, v: World)
    requires Inv(u) && Inv(t) && PendingId(u.rows) != 0 && KernelOnly(u, t) && Later(Settle(t), v)
    requires Published(u) ==> Matches(t, |t.rows|)
    requires !Published(u) ==> u.pointer.Some? && Matches(t, u.pointer.value.generation)
    ensures Ready(v) && v.rows == Settle(u).rows && Decides(u, v)
  {
    PendingIsNewest(u);
    PredecessorIsCommitted(u);
    if !Published(u) {
      MatchesRestored(t);
    }
    SettledDecides(u, t, v);
    hide Decides, Restored, Matches, LatestBelow;
    NewestIsOver(u);
  }

  /** Deciding the newest generation leaves the pointer at a committed row. */
  lemma NewestIsOver(u: World)
    requires Inv(u) && PendingId(u.rows) == |u.rows| > 0 && InFlight(u.rows[|u.rows| - 1].status)
    requires !Published(u) ==> u.pointer.Some?
    ensures var v := Settle(u);
      && v.pointer == u.pointer && v.pointer.Some? && 1 <= v.pointer.value.generation <= |v.rows|
      && v.rows[v.pointer.value.generation - 1].status.Committed?
      && (Published(u) ==> v.pointer.value.generation == |u.rows|)
      && (forall k :: 0 <= k < |v.rows| ==> !InFlight(v.rows[k].status))
  {
    PredecessorIsCommitted(u);
    SnapshotsAlwaysVerify(u, |u.rows|);
    if !Published(u) {
      SnapshotsAlwaysVerify(u, LastKnownGood(u.rows));
    }
    hide RowOk, LatestBelow;
  }

  /** A kernel that matches the predecessor runs what ran before. */
  lemma MatchesRestored(w: World)
    requires Inv(w) && |w.rows| > 0 && InFlight(w.rows[|w.rows| - 1].status) && !Published(w)
    requires w.pointer.Some? && Matches(w, w.pointer.value.generation)
    ensures Restored(w)
  {
    PredecessorIsCommitted(w);
    var p := LastKnownGood(w.rows);
    if p != 0 {
      SnapshotsAlwaysVerify(w, p);
    }
    hide Inv, LatestBelow;
  }

  lemma SettledDecides(u: World, t: World, v: World)
    requires |u.rows| > 0 && KernelOnly(u, t) && Later(Settle(t), v)
    requires InFlight(u.rows[|u.rows| - 1].status) && !Published(u) ==> Restored(t)
    ensures v.rows == Settle(u).rows && Decides(u, v)
  {
  }

  lemma PendingRefused(u: World, v: World, why: Refusal)
    requires |u.rows| > 0 && Decides(u, v) && OnlyRemoves(u, v) && !Impossible(why) && !why.StillLive?
    ensures PendingRecoveredAs(u, v, Err(why), false)
  {
  }

  /** Stopped before, in or after the deciding write. */
  lemma PendingStopped(u: World, t: World, v: World, a: Action, why: Refusal)
    requires Inv(u) && Inv(t) && |u.rows| > 0 && KernelOnly(u, t) && OnlyRemoves(u, t) && Enabled(t, a)
    requires a == Finalize(|u.rows|) || (a == MarkRolledBack(|u.rows|) && Restored(t))
    requires Later(t, v) || Later(Perform(t, a), v)
    requires why.DeviceError? || why.ProcessDied?
    ensures PendingRecoveredAs(u, v, Err(why), false)
  {
  }

  lemma PendingFinished(u: World, t: World, v: World, calm: bool)
    requires Inv(u) && Inv(t) && |u.rows| > 0 && Published(u) && KernelOnly(u, t)
    requires Matches(t, |t.rows|) && Later(Perform(t, Finalize(|u.rows|)), v)
    requires calm ==> v.clock == u.clock && t.kernel == Established(u.kernel, u.rows[|u.rows| - 1].checksum)
    ensures PendingRecoveredAs(u, v, Ok(FinalizedPrepared(|u.rows|)), calm)
  {
    PendingIsNewest(u);
    SettledIsReady(u, t, v);
  }

  lemma PendingRolledBack(u: World, t: World, v: World, calm: bool)
    requires Inv(u) && Inv(t) && |u.rows| > 0 && InFlight(u.rows[|u.rows| - 1].status) && !Published(u) && Due(u)
    requires u.pointer.Some? && u.pointer == u.rows[|u.rows| - 1].sum.previous
    requires KernelOnly(u, t) && Matches(t, u.pointer.value.generation) && Enabled(t, MarkRolledBack(|u.rows|))
    requires Later(Perform(t, MarkRolledBack(|u.rows|)), v)
    requires calm ==> v.clock == u.clock && t.kernel == Established(u.kernel, u.pointer.value.policySum)
    ensures PendingRecoveredAs(u, v, Ok(RolledBackTo(u.pointer.value.generation)), calm)
  {
    PendingIsNewest(u);
    SettledIsReady(u, t, v);
  }

  lemma PendingFirstRolledBack(u: World, t: World, v: World, calm: bool)
    requires |u.rows| > 0 && InFlight(u.rows[|u.rows| - 1].status) && !Published(u) && Due(u)
    requires u.rows[|u.rows| - 1].sum.previous.None? && FirstRemovable(u)
    requires KernelOnly(u, t) && t.kernel == Bare && Enabled(t, MarkRolledBack(|u.rows|))
    requires Later(Perform(t, MarkRolledBack(|u.rows|)), v) && (calm ==> v.clock == u.clock)
    ensures PendingRecoveredAs(u, v, Err(FirstRolledBack), calm)
  {
  }

  lemma PendingAmbiguous(u: World, v: World, calm: bool)
    requires |u.rows| > 0 && !Published(u) && Due(u) && u.rows[|u.rows| - 1].sum.previous.None?
    requires Later(u, v) && (calm ==> v == u) && !FirstRemovable(u)
    ensures PendingRecoveredAs(u, v, Err(AmbiguousFirst), calm)
  {
  }

  lemma PendingNotDue(u: World, v: World, calm: bool)
    requires |u.rows| > 0 && !Published(u) && Later(u, v) && (calm ==> v == u) && !Due(v)
    ensures PendingRecoveredAs(u, v, Err(StillLive), calm)
  {
  }

  lemma PendingLater(u: World, t: World, v: World, r: Reply<Recovery>, calm: bool, still: bool)
    requires |u.rows| > 0 && Later(u, t) && (calm ==> still && t == u) && PendingRecoveredAs(t, v, r, still)
    ensures PendingRecoveredAs(u, v, r, calm)
  {
  }

  lemma RecoveredFromPending(u: World, t: World, v: World, r: Reply<Recovery>, calm: bool)
    requires PendingId(u.rows) != 0 && Later(u, t) && (calm ==> t == u) && |u.rows| > 0
    requires PendingRecoveredAs(t, v, r, calm)
    ensures RecoveredAs(u, v, r, calm)
  {
  }

  lemma RecoveredRefused(u: World, v: World, why: Refusal, calm: bool)
    requires KernelOnly(u, v) && OnlyRemoves(u, v) && !Impossible(why)
    requires calm ==> v == u && why.NoPointer? && PendingId(u.rows) == 0 && u.pointer.None?
    ensures RecoveredAs(u, v, Err(why), calm)
  {
  }

  lemma RecoveredLater(u: World, t: World, v: World, r: Reply<Recovery>, calm: bool)
    requires Later(u, t) && (calm ==> t == u) && RecoveredAs(t, v, r, calm)
    ensures RecoveredAs(u, v, r, calm)
  {
  }

  /** What a timer run from u to v with reply r comes to. */
  predicate ExpiredAs(u: World, v: World, r: Reply<bool>, calm: bool) {
    && Decides(u, v)
    && (r.Err? ==> !Impossible(r.why) && !r.why.StillLive?)
    && (r == Ok(true) ==> v.rows == Settle(u).rows && !Published(u) && Ready(v))
    && (calm && (PendingId(u.rows) == 0 || !Due(u)) ==> r == Ok(false) && v == u)
    && (calm && PendingId(u.rows) != 0 && |u.rows| > 0 && Due(u) ==> v == PendingWorld(u))
    && (calm && PendingId(u.rows) != 0 && |u.rows| > 0 && Due(u) ==>
      r == if PendingReply(u).Ok? then Ok(PendingReply(u).value.RolledBackTo?) else Err(PendingReply(u).why))
  }

  lemma ExpiredRefused(u: World, v: World, why: Refusal)
    requires Later(u, v) && !Impossible(why) && !why.StillLive?
    ensures ExpiredAs(u, v, Err(why), false)
  {
  }

  lemma ExpiredNotDue(u: World, v: World, calm: bool)
    requires Later(u, v) && (calm ==> v == u) && (calm ==> PendingId(u.rows) == 0 || !Due(u))
    ensures ExpiredAs(u, v, Ok(false), calm)
  {
  }

  lemma ExpiredFromPending(u: World, t: World, v: World, q: Reply<Recovery>, calm: bool)
    requires Inv(u) && |u.rows| > 0 && PendingId(u.rows) == |u.rows| && Later(u, t) && (calm ==> t == u)
    requires Due(t) && PendingRecoveredAs(t, v, q, calm)
    ensures ExpiredAs(u, v, if q.Ok? then Ok(q.value.RolledBackTo?) else Err(q.why), calm)
  {
  }

  lemma RecoveredCommitted(u: World, v: World, calm: bool)
    requires Inv(u) && PendingId(u.rows) == 0 && u.pointer.Some?
    requires KernelOnly(u, v) && Matches(v, u.pointer.value.generation)
    requires calm ==> v == u.(kernel := Established(u.kernel, u.pointer.value.policySum))
    ensures RecoveredAs(u, v, Ok(RestoredCommitted(u.pointer.value.generation)), calm)
  {
    CommittedPointer(u);
  }

  /** With nothing in flight the pointer is the latest committed row's, and that row has its hash. */
  lemma CommittedPointer(w: World)
    requires Inv(w) && PendingId(w.rows) == 0
    ensures var g := LastKnownGood(w.rows);
      && w.pointer == PointerAt(w.rows, |w.rows|)
      && (g != 0 ==> w.rows[g - 1].status.Committed? && w.pointer == Some(PointerTo(w.rows[g - 1].sum)))
      && (g != 0 ==> w.rows[g - 1].sum.generation == g && w.rows[g - 1].sum.script == w.rows[g - 1].checksum)
      && (g != 0 ==> g in w.observed && w.observed[g] == PrintOf(Generation(w.rows[g - 1].checksum)))
      && (w.pointer.None? <==> g == 0)
  {
    var g := LastKnownGood(w.rows);
    if g != 0 {
      assert RowOk(w, g);
    }
  }

  // ---- Apply ----

  /** The immutable snapshot a save writes: it names the latest committed generation. */
  function SnapshotFor(w: World, a: Artifact): Snapshot {
    Snapshot(a.generation, a.script, PointerAt(w.rows, |w.rows|), w.boot)
  }

  /** No earlier save left a different immutable file under this id. */
  predicate FilesAgree(w: World, a: Artifact) {
    FilesMatch(w, a.generation, SnapshotFor(w, a))
  }

  function GuardReply(w: World): Reply<()> {
    if PendingId(w.rows) != 0 then Err(StillPending)
    else if LastKnownGood(w.rows) == 0 && w.kernel.Existing() > 0 then Err(ForeignTables)
    else Ok(())
  }

  function ApplyReply(w: World, a: Artifact): Reply<nat> {
    if GuardReply(w).Err? then Err(GuardReply(w).why)
    else if SaveReply(w, a).Err? then Err(SaveReply(w, a).why)
    else Ok(a.generation)
  }

  predicate FilesMatch(w: World, id: nat, s: Snapshot) {
    (id in w.scripts ==> w.scripts[id] == s.script) && (id in w.snapshots ==> w.snapshots[id] == s)
  }

  function SaveReply(w: World, a: Artifact): Reply<()> {
    if !FilesAgree(w, a) then Err(FileConflict)
    else if a.generation <= |w.rows| then Err(IdTaken)
    else Ok(())
  }

  predicate NewRow(w: World, a: Artifact, r: Row) {
    r.checksum == a.script && r.sum == SnapshotFor(w, a) && r.boot == w.boot
  }

  /** The candidate is saved as the newest row, pending, and nothing else has moved. */
  predicate Saved(u: World, v: World, a: Artifact, deadline: Option<int>) {
    && |v.rows| == |u.rows| + 1 && a.generation == |v.rows|
    && (forall k :: 0 <= k < |u.rows| ==> v.rows[k] == u.rows[k])
    && NewRow(u, a, v.rows[|u.rows|])
    && v.rows[|u.rows|].status.Pending? && v.rows[|u.rows|].deadline == deadline
    && v == u.(rows := v.rows, scripts := v.scripts, snapshots := v.snapshots, clock := v.clock)
    && u.clock <= v.clock
  }

  lemma FilesStopped(u: World, v: World, a: Artifact)
    requires v == u.(scripts := v.scripts, snapshots := v.snapshots, clock := v.clock)
    ensures SaveFailed(u, v, a)
  {
  }

  lemma InsertStopped(u: World, t: World, v: World, a: Artifact, deadline: Option<int>)
    requires t == u.(scripts := t.scripts, snapshots := t.snapshots, clock := t.clock)
    requires Enabled(t, InsertRow(a.generation, deadline)) && FilesAgree(u, a)
    requires Later(t, v) || Later(Perform(t, InsertRow(a.generation, deadline)), v)
    requires a.generation in t.snapshots && t.snapshots[a.generation] == SnapshotFor(u, a)
    ensures SaveFailed(u, v, a)
  {
  }

  lemma InsertSaves(u: World, t: World, v: World, a: Artifact, deadline: Option<int>)
    requires t == u.(scripts := t.scripts, snapshots := t.snapshots, clock := t.clock) && u.clock <= t.clock
    requires Enabled(t, InsertRow(a.generation, deadline)) && Later(Perform(t, InsertRow(a.generation, deadline)), v)
    requires a.generation in t.snapshots && t.snapshots[a.generation] == SnapshotFor(u, a)
    requires a.generation in t.scripts && t.scripts[a.generation] == a.script
    ensures Saved(u, v, a, deadline)
  {
  }

  /** The candidate runs in the kernel with its hash on record: applied, or already committed. */
  predicate InForce(u: World, v: World, id: nat, safe: bool) {
    && id == |u.rows| == |v.rows| && id > 0
    && (forall k :: 0 <= k < id - 1 ==> v.rows[k] == u.rows[k])
    && v.rows[id - 1].checksum == u.rows[id - 1].checksum && v.rows[id - 1].sum == u.rows[id - 1].sum
    && v.rows[id - 1].boot == u.rows[id - 1].boot
    && v.kernel == Ours(Generation(u.rows[id - 1].checksum)) && id in v.observed
    && (safe ==> v.rows[id - 1].status.Applied? && v.rows[id - 1].deadline == u.rows[id - 1].deadline && v.pointer == u.pointer)
    && (!safe ==> v.rows[id - 1].status.Committed? && v.pointer == Some(PointerTo(v.rows[id - 1].sum)))
  }

  lemma RollbackRefusal(u: World, v: World, id: nat, q: Reply<()>, calm: bool)
    requires RolledBackAs(u, v, id, q, calm)
    ensures q.Err? ==> !Impossible(q.why)
  {
  }

  lemma CommitOutcome(u: World, t: World, v: World, id: nat, q: Reply<()>, calm: bool)
    requires Inv(u) && Newest(u, id) && u.rows[id - 1].status.Applied? && id in u.observed
    requires u.kernel == Ours(Generation(u.rows[id - 1].checksum)) && u.rows[id - 1].deadline.None?
    requires Later(u, t) && (calm ==> t == u) && CommitLockedAs(t, v, id, q, calm)
    ensures q.Err? ==> !Impossible(q.why)
    ensures q.Ok? ==> InForce(u, v, id, false)
    ensures calm ==> q.Ok? && v.clock == u.clock
  {
  }

  /** A candidate whose applied mark may or may not have been written is still the one in flight. */
  predicate StillCandidate(u: World, v: World, id: nat) {
    && SameCandidate(u, v) && Newest(v, id) && InFlight(v.rows[id - 1].status) && !Published(v) && v.kernel == u.kernel
  }

  lemma MarkedApplied(u: World, t: World, id: nat)
    requires Enabled(u, MarkApplied(id)) && (Later(u, t) || Later(Perform(u, MarkApplied(id)), t))
    ensures StillCandidate(u, t, id)
    ensures Later(Perform(u, MarkApplied(id)), t) ==> t.rows[id - 1].status.Applied?
  {
  }

  lemma ForgottenRow(u: World, v: World, id: nat)
    requires Enabled(u, MarkRolledBack(id)) && (Later(u, v) || Later(Perform(u, MarkRolledBack(id)), v))
    ensures SameCandidate(u, v) && v.kernel == u.kernel
  {
  }

  lemma MarkedStays(u: World, t: World, v: World, id: nat)
    requires StillCandidate(u, t, id) && v.rows == t.rows && v.pointer == t.pointer && v.kernel == t.kernel
    ensures StillCandidate(u, v, id)
  {
  }

  lemma FailedAfterMark(u: World, t: World, v: World, id: nat)
    requires StillCandidate(u, t, id) && SameCandidate(t, v)
    ensures SameCandidate(u, v)
  {
  }

  lemma InForceRecorded(u: World, t: World, v: World, id: nat)
    requires Newest(u, id) && u.rows[id - 1].status.Pending? && u.kernel == Ours(Generation(u.rows[id - 1].checksum))
    requires Later(Perform(u, MarkApplied(id)), t)
    requires v == t.(observed := v.observed, clock := v.clock) && id in v.observed
    ensures InForce(u, v, id, true)
  {
  }

  lemma AppliedLater(u: World, t: World, v: World, id: nat, safe: bool)
    requires InForce(u, t, id, safe) && Later(t, v)
    ensures InForce(u, v, id, safe)
  {
  }

  lemma AppliedEarlier(u: World, t: World, v: World, id: nat, safe: bool)
    requires Later(u, t) && InForce(t, v, id, safe)
    ensures InForce(u, v, id, safe)
  {
  }

  lemma AppliedDetails(u: World, v: World, id: nat)
    requires InForce(u, v, id, true)
    ensures Newest(v, id) && v.rows[id - 1].status.Applied? && id in v.observed
    ensures v.kernel == Ours(Generation(v.rows[id - 1].checksum)) && v.rows[id - 1].deadline == u.rows[id - 1].deadline
  {
  }

  lemma AppliedChain(u: World, t: World, c: World, v: World, id: nat, safe: bool)
    requires Newest(u, id) && KernelOnly(u, t) && InForce(t, c, id, true) && InForce(c, v, id, safe)
    ensures InForce(u, v, id, safe)
  {
  }

  lemma LaunchedOrNot(u: World, t: World, v: World, id: nat, r: Reply<nat>, safe: bool)
    requires Newest(u, id) && KernelOnly(u, t)
    requires if r.Ok? then InForce(t, v, id, safe) else SameCandidate(t, v) && (v.rows[id - 1].status.RolledBack? ==> Restored(v))
    ensures if r.Ok? then InForce(u, v, id, safe) else SameCandidate(u, v) && Forgotten(u.kernel, v)
  {
  }

  /** What an apply leaves behind when it succeeds: the candidate saved as the newest row and in force. */
  predicate Launched(u: World, v: World, a: Artifact, deadline: Option<int>) {
    && |v.rows| == |u.rows| + 1 && a.generation == |v.rows|
    && (forall k :: 0 <= k < |u.rows| ==> v.rows[k] == u.rows[k])
    && NewRow(u, a, v.rows[|u.rows|])
    && v.kernel == Ours(Generation(a.script)) && a.generation in v.observed
    && (deadline.Some? ==>
      && v.rows[|u.rows|].status.Applied? && v.rows[|u.rows|].deadline == deadline && v.pointer == u.pointer)
    && (deadline.None? ==>
      && v.rows[|u.rows|].status.Committed? && v.pointer == Some(PointerTo(v.rows[|u.rows|].sum)))
  }

  predicate AppliedAs(u: World, v: World, a: Artifact, safe: bool, ttl: nat) {
    && |v.rows| == |u.rows| + 1
    && var deadline := v.rows[|u.rows|].deadline;
      && (safe ==> deadline.Some? && u.clock + ttl <= deadline.value && Launched(u, v, a, deadline))
      && (!safe ==> Launched(u, v, a, None))
  }

  lemma AppliedLaterAs(u: World, t: World, v: World, a: Artifact, safe: bool, ttl: nat)
    requires Later(u, t)
    ensures Launched(t, v, a, if safe then Some(t.clock + ttl) else None) ==> AppliedAs(u, v, a, safe, ttl)
    ensures SaveReply(t, a) == SaveReply(u, a) && FilesAgree(t, a) == FilesAgree(u, a)
  {
  }

  /** Only the newest of the rows has moved, and not its identity. */
  predicate SameCandidate(u: World, v: World) {
    && |v.rows| == |u.rows| > 0
    && (forall k :: 0 <= k < |u.rows| - 1 ==> v.rows[k] == u.rows[k])
    && v.rows[|u.rows| - 1].sum == u.rows[|u.rows| - 1].sum
  }

  /** A candidate is out of flight by roll-back only with the kernel untouched, or its predecessor back in it. */
  predicate Forgotten(before: Kernel, v: World)
    requires |v.rows| > 0
  {
    v.rows[|v.rows| - 1].status.RolledBack? ==> v.kernel == before || Restored(v)
  }

  /** The rows may have the candidate, pending; nothing but its files is there besides. */
  predicate SaveFailed(u: World, v: World, a: Artifact) {
    && v == u.(rows := v.rows, scripts := v.scripts, snapshots := v.snapshots, clock := v.clock)
    && (v.rows != u.rows ==>
      && FilesAgree(u, a) && |v.rows| == |u.rows| + 1 == a.generation
      && (forall k :: 0 <= k < |u.rows| ==> v.rows[k] == u.rows[k])
      && v.rows[|u.rows|].sum == SnapshotFor(u, a) && v.rows[|u.rows|].status.Pending?)
  }

  /**
   What an apply that fails leaves behind, whatever went wrong: the rows and the kernel untouched, or the
   candidate as the newest row, which is rolled back only if it never reached the kernel or what ran
   before it is back.
   */
  predicate ApplyFailed(u: World, v: World, a: Artifact) {
    || (v.rows == u.rows && v.kernel == u.kernel)
    || (
      && FilesAgree(u, a) && |v.rows| == |u.rows| + 1 == a.generation
      && (forall k :: 0 <= k < |u.rows| ==> v.rows[k] == u.rows[k])
      && v.rows[|u.rows|].sum == SnapshotFor(u, a) && Forgotten(u.kernel, v))
  }

  lemma LaunchFailed(u: World, t: World, v: World, a: Artifact, deadline: Option<int>)
    requires Saved(u, t, a, deadline) && FilesAgree(u, a) && SameCandidate(t, v) && Forgotten(t.kernel, v)
    ensures ApplyFailed(u, v, a)
  {
  }

  lemma SaveStopped(u: World, v: World, a: Artifact)
    requires SaveFailed(u, v, a)
    ensures ApplyFailed(u, v, a)
  {
  }

  lemma NothingApplied(u: World, v: World, a: Artifact)
    requires Later(u, v)
    ensures ApplyFailed(u, v, a)
  {
  }

  lemma FailedLater(u: World, t: World, v: World, a: Artifact)
    requires Later(u, t) && ApplyFailed(t, v, a)
    ensures ApplyFailed(u, v, a)
  {
  }

  lemma FailedAfterApplied(u: World, t: World, c: World, v: World, id: nat)
    requires Newest(u, id) && KernelOnly(u, t) && InForce(t, c, id, true) && SameCandidate(c, v)
    ensures SameCandidate(u, v)
  {
  }

  lemma FailedByRollback(u: World, t: World, v: World, id: nat, q: Reply<()>, calm: bool)
    requires Newest(u, id) && InFlight(u.rows[id - 1].status) && Later(u, t) && RolledBackAs(t, v, id, q, calm)
    ensures SameCandidate(u, v) && (v.rows[id - 1].status.RolledBack? ==> Restored(v))
    ensures calm && u.rows[id - 1].status.Applied? ==> v.rows[id - 1].status.RolledBack?
  {
  }

  lemma FailedByCommit(u: World, v: World, id: nat, q: Reply<()>, calm: bool)
    requires Newest(u, id) && InFlight(u.rows[id - 1].status) && CommitLockedAs(u, v, id, q, calm)
    ensures SameCandidate(u, v) && (v.rows[id - 1].status.RolledBack? ==> Restored(v))
  {
  }

  lemma SavedDetails(u: World, v: World, a: Artifact, deadline: Option<int>)
    requires Saved(u, v, a, deadline)
    ensures Newest(v, a.generation) && v.rows[a.generation - 1].status.Pending?
    ensures v.rows[a.generation - 1].deadline == deadline && v.kernel == u.kernel
    ensures LastKnownGood(v.rows) == LastKnownGood(u.rows)
  {
    LatestFrame(u.rows, v.rows, |u.rows|);
  }

  lemma LaunchedFinished(u: World, t: World, v: World, a: Artifact, deadline: Option<int>)
    requires Saved(u, t, a, deadline) && InForce(t, v, a.generation, deadline.Some?)
    ensures Launched(u, v, a, deadline)
  {
  }

  // ---- Reconcile ----

  datatype Drift = Drift(missing: bool, repaired: bool)

  /** The generation the kernel should run, or 0; a merely persisted candidate is not it. */
  function Expected(w: World): nat {
    var p := PendingId(w.rows);
    if p != 0 && w.rows[p - 1].status.Applied? then p
    else if Published(w) then |w.rows|
    else LastKnownGood(w.rows)
  }

  predicate UnfinishedCandidate(w: World) {
    PendingId(w.rows) != 0 && !w.rows[PendingId(w.rows) - 1].status.Prepared?
  }

  predicate DriftIn(w: World) {
    || (PendingId(w.rows) != 0 && w.rows[PendingId(w.rows) - 1].status.Pending?)
    || !w.kernel.Intact()
    || (Expected(w) != 0 && !IntegrityHolds(w, Expected(w)))
  }

  function ReconcileReply(w: World, repair: bool): Reply<Drift> {
    if !DriftIn(w) then Ok(Drift(false, false))
    else if !repair then Ok(Drift(true, false))
    else if UnfinishedCandidate(w) then
      var q := RollbackReply(w, PendingId(w.rows));
      if q.Ok? then Ok(Drift(true, true)) else Err(q.why)
    else if Expected(w) == 0 then Err(NothingCommitted)
    else Ok(Drift(true, true))
  }

  function ReconcileWorld(w: World, repair: bool): World {
    if !DriftIn(w) || !repair then w
    else if UnfinishedCandidate(w) then RollbackWorld(w, PendingId(w.rows))
    else if 1 <= Expected(w) <= |w.rows| then w.(kernel := Ours(Generation(w.rows[Expected(w) - 1].checksum)))
    else w
  }

  /**
   What a reconcile run comes to: without repair nothing moves; drift is reported exactly when there
   is some; and a repaired world has the unfinished candidate rolled back, or the expected generation
   in the kernel with its hash matching. A calm run gives exactly the expected reply and world.
   */
  predicate ReconciledAs(u: World, v: World, repair: bool, r: Reply<Drift>, calm: bool) {
    && Decides(u, v)
    && (calm ==> r == ReconcileReply(u, repair) && v == ReconcileWorld(u, repair))
    && (!repair ==> Later(u, v))
    && (r.Err? ==> !Impossible(r.why))
    && (r.Ok? ==> (r.value.missing <==> DriftIn(u)))
    && (r.Ok? && !r.value.repaired ==> Later(u, v) && !(repair && r.value.missing))
    && (r.Ok? && r.value.repaired ==>
      if UnfinishedCandidate(u) then Later(RollbackWorld(u, PendingId(u.rows)), v)
      else KernelOnly(u, v) && Expected(u) != 0 && Matches(v, Expected(u)))
  }

  lemma ReconciledRefused(u: World, v: World, repair: bool, why: Refusal)
    requires Later(u, v) && !Impossible(why)
    ensures ReconciledAs(u, v, repair, Err(why), false)
  {
  }

  lemma ReconciledReport(u: World, repair: bool, r: Reply<Drift>)
    requires r.Ok? && !r.value.repaired && (r.value.missing <==> DriftIn(u)) && !(repair && r.value.missing)
    ensures ReconciledAs(u, u, repair, r, true)
  {
  }

  lemma DriftLater(u: World, t: World)
    requires Later(u, t)
    ensures DriftIn(t) == DriftIn(u) && UnfinishedCandidate(t) == UnfinishedCandidate(u) && Expected(t) == Expected(u)
  {
  }

  lemma ReconciledLater(u: World, t: World, v: World, repair: bool, r: Reply<Drift>, calm: bool, still: bool)
    requires Later(u, t) && (calm ==> still && t == u) && ReconciledAs(t, v, repair, r, still)
    ensures ReconciledAs(u, v, repair, r, calm)
  {
    DriftLater(u, t);
    DecidesLater(u, t, v);
    RollbackLater(u, t, PendingId(u.rows));
    hide DriftIn, Expected, PendingBelow, Decides, RollbackWorld, UnfinishedCandidate, Matches, ReconcileReply, ReconcileWorld;
  }

  lemma DecidesLater(u: World, t: World, v: World)
    requires Later(u, t) && Decides(t, v)
    ensures Decides(u, v)
  {
  }

  lemma SettleLater(u: World, t: World)
    requires Later(u, t)
    ensures Later(Settle(u), Settle(t)) && Published(t) == Published(u)
  {
  }

  lemma RollbackLater(u: World, t: World, id: nat)
    requires Later(u, t)
    ensures Later(RollbackWorld(u, id), RollbackWorld(t, id))
  {
    SettleLater(u, t);
    hide Settle, Published;
  }

  lemma ReconciledByRollback(u: World, v: World, id: nat, q: Reply<()>, calm: bool)
    requires Inv(u) && Newest(u, id) && UnfinishedCandidate(u) && DriftIn(u) && RolledBackAs(u, v, id, q, calm)
    ensures ReconciledAs(u, v, true, if q.Ok? then Ok(Drift(true, true)) else Err(q.why), calm)
  {
    PendingIsNewest(u);
  }

  lemma ReconciledNothing(u: World)
    requires Expected(u) == 0 && !UnfinishedCandidate(u) && DriftIn(u)
    ensures ReconciledAs(u, u, true, Err(NothingCommitted), true)
  {
  }

  lemma ReconciledByReinstall(u: World, v: World, id: nat, r: Reply<Drift>, calm: bool)
    requires id == Expected(u) && id != 0 && !UnfinishedCandidate(u) && DriftIn(u) && KernelOnly(u, v)
    requires 1 <= id <= |u.rows| && id in u.observed && u.observed[id] == PrintOf(Generation(u.rows[id - 1].checksum))
    requires r == Ok(Drift(true, true)) ==> v.kernel == Ours(Generation(u.rows[id - 1].checksum))
    requires r == Ok(Drift(true, true)) || r == Err(DeviceError) || r == Err(ProcessDied)
    requires calm ==> r.Ok? && v.clock == u.clock
    ensures ReconciledAs(u, v, true, r, calm)
  {
  }

  lemma SameHash(u: World, t: World, v: World, id: nat)
    requires KernelOnly(u, t) && v == t.(observed := v.observed, clock := v.clock)
    requires 1 <= id <= |u.rows| && id in u.observed && u.observed[id] == PrintOf(Generation(u.rows[id - 1].checksum))
    requires v.observed == t.observed || v.observed == t.observed[id := PrintOf(Generation(u.rows[id - 1].checksum))]
    ensures v.observed == u.observed
  {
  }

  /** The expected generation is on record with its hash, and may be loaded. */
  lemma ExpectedIsSound(w: World)
    requires Inv(w) && Expected(w) != 0 && !UnfinishedCandidate(w)
    ensures var id := Expected(w);
      && 1 <= id <= |w.rows| && (w.rows[id - 1].status.Prepared? || w.rows[id - 1].status.Committed?)
      && id in w.observed && w.observed[id] == PrintOf(Generation(w.rows[id - 1].checksum))
      && MayLoad(w, Generation(w.rows[id - 1].checksum)) && OwnsTables(w)
      && (LastKnownGood(w.rows) != 0 || w.rows[id - 1].status.Prepared?)
  {
    PendingIsNewest(w);
    assert RowOk(w, Expected(w));
  }

  /** No reboot of the host and no outside writer. */
  predicate Undisturbed(log: seq<Action>) {
    forall k :: 0 <= k < |log| ==> !log[k].Reboot? && !log[k].Interfere?
  }

  // ---- What calm runs come to, field by field ----

  /** Either the newest generation waits to be decided, or every row is decided. */
  lemma PendingOrDecided(w: World)
    requires Inv(w)
    ensures var n := |w.rows|;
      if n > 0 && !w.rows[n - 1].status.Committed? && !w.rows[n - 1].status.RolledBack? then
        && PendingId(w.rows) == n && w.rows[n - 1].sum.generation == n && w.rows[n - 1].sum.script == w.rows[n - 1].checksum
        && forall k :: 0 <= k < n - 1 ==> w.rows[k].status.Committed? || w.rows[k].status.RolledBack?
      else PendingId(w.rows) == 0 && forall k :: 0 <= k < n ==> w.rows[k].status.Committed? || w.rows[k].status.RolledBack?
  {
    PendingIsNewest(w);
    var n := |w.rows|;
    if n > 0 {
      assert RowOk(w, n);
    }
    forall k | 0 <= k < n - 1 ensures w.rows[k].status.Committed? || w.rows[k].status.RolledBack? {
      assert !InFlight(w.rows[k].status);
    }
  }

  /**
   A calm commit of an applied generation answers that it expired exactly at or after its deadline, that
   its integrity is lost exactly when in time its hash is not on record or not what the kernel shows, and
   is otherwise done; either failure puts back what ran before.
   */
  lemma CommitMeans(u: World, v: World, id: nat, r: Reply<()>)
    requires Inv(u) && CommittedAs(u, v, id, r, true)
    requires 1 <= id == |u.rows| && u.rows[id - 1].status.Applied?
    ensures var g := u.rows[id - 1]; var same := id in u.observed && u.kernel.Fingerprint() == Some(u.observed[id]);
      && (r == Err(Expired) <==> g.deadline.Some? && g.deadline.value <= u.clock)
      && (r == Err(IntegrityLost) <==> !same && (g.deadline.None? || u.clock < g.deadline.value))
      && (r == Ok(()) <==> same && (g.deadline.None? || u.clock < g.deadline.value))
    ensures var g := u.rows[id - 1];
      v == if r.Ok? then
          u.(rows := u.rows[id - 1 := g.(status := Committed, deadline := None, prior := g.sum.previous)],
             pointer := Some(Pointer(id, g.sum, g.checksum)))
        else
          u.(rows := u.rows[id - 1 := g.(status := RolledBack)],
             kernel := if g.sum.previous.None? then Bare else Ours(Generation(g.sum.previous.value.policySum)))
  {
    PendingOrDecided(u);
    PredecessorIsCommitted(u);
    OwnPointerIsNew(u);
  }

  /** The same of the last deadline read, with the row prepared by then. */
  lemma CommitLockedMeans(u: World, v: World, id: nat, r: Reply<()>)
    requires Inv(u) && 1 <= id == |u.rows| && u.rows[id - 1].status.Applied? && CommitLockedAs(u, v, id, r, true)
    ensures var g := u.rows[id - 1].(prior := u.rows[id - 1].sum.previous);
      if g.deadline.Some? && g.deadline.value <= u.clock then
        && r == Err(Expired)
        && v == u.(rows := u.rows[id - 1 := g.(status := RolledBack)],
                   kernel := if g.sum.previous.None? then Bare else Ours(Generation(g.sum.previous.value.policySum)))
      else
        && r == Ok(())
        && v == u.(rows := u.rows[id - 1 := g.(status := Committed, deadline := None)], pointer := Some(Pointer(id, g.sum, g.checksum)))
  {
    PendingOrDecided(u);
    PredecessorIsCommitted(u);
    OwnPointerIsNew(u);
  }

  /** Any other commit is refused and changes nothing. */
  lemma CommitRefusedMeans(u: World, v: World, id: nat, r: Reply<()>)
    requires Inv(u) && CommittedAs(u, v, id, r, true)
    requires !(1 <= id == |u.rows| && u.rows[id - 1].status.Applied?)
    ensures v == u
    ensures r == Err(if 1 <= id == |u.rows| && (u.rows[id - 1].status.Pending? || u.rows[id - 1].status.Prepared?) then NotApplied else NotPending)
  {
    PendingOrDecided(u);
  }

  /**
   What a calm boot recovery does about a generation in flight: finalized if its own snapshot is published;
   left alone unless it is prepared, from another boot, or at or past its deadline; otherwise rolled back
   with its predecessor verified in the kernel, or as a first one with its tables gone, unless there are
   tables that its recorded hash does not prove to be its own.
   */
  lemma BootMeans(u: World, v: World, r: Reply<Recovery>)
    requires Inv(u) && RecoveredAs(u, v, r, true)
    requires |u.rows| > 0 && !u.rows[|u.rows| - 1].status.Committed? && !u.rows[|u.rows| - 1].status.RolledBack?
    ensures var n := |u.rows|; var g := u.rows[n - 1]; var p := g.sum.previous;
      var published := g.status.Prepared? && u.pointer == Some(Pointer(n, g.sum, g.checksum));
      var due := g.status.Prepared? || g.boot != u.boot || (g.deadline.Some? && g.deadline.value <= u.clock);
      var own := u.kernel.Intact() && n in u.observed && u.kernel.Fingerprint() == Some(u.observed[n]);
      if published then
        && r == Ok(FinalizedPrepared(n))
        && v == u.(rows := u.rows[n - 1 := g.(status := Committed, deadline := None)], kernel := Established(u.kernel, g.checksum))
      else if !due then r == Err(StillLive) && v == u
      else if p.Some? then
        && r == Ok(RolledBackTo(p.value.generation))
        && v == u.(rows := u.rows[n - 1 := g.(status := RolledBack)], kernel := Established(u.kernel, p.value.policySum))
      else if u.kernel == Bare || own then
        r == Err(FirstRolledBack) && v == u.(rows := u.rows[n - 1 := g.(status := RolledBack)], kernel := Bare)
      else r == Err(AmbiguousFirst) && v == u
  {
    PendingOrDecided(u);
  }

  /** With every row decided it restores the latest committed generation, which the pointer is to, if there is one. */
  lemma BootRestoresMeans(u: World, v: World, r: Reply<Recovery>, id: nat)
    requires Inv(u) && RecoveredAs(u, v, r, true)
    requires forall k :: 0 <= k < |u.rows| ==> u.rows[k].status.Committed? || u.rows[k].status.RolledBack?
    requires id <= |u.rows| && (id != 0 ==> u.rows[id - 1].status.Committed?)
    requires forall k :: id <= k < |u.rows| ==> u.rows[k].status.RolledBack?
    ensures id == 0 ==> r == Err(NoPointer) && v == u
    ensures id != 0 ==> r == Ok(RestoredCommitted(id)) && v == u.(kernel := Established(u.kernel, u.rows[id - 1].checksum))
  {
    PendingOrDecided(u);
    CommittedPointer(u);
    LatestIs(u.rows, |u.rows|, id);
  }

  lemma {:induction false} LatestIs(rows: seq<Row>, k: nat, id: nat)
    requires id <= k <= |rows| && (id != 0 ==> rows[id - 1].status.Committed?)
    requires forall j :: id <= j < k ==> !rows[j].status.Committed?
    ensures LatestBelow(rows, k) == id
  {
  }

  /** What a calm run of the expiry timer does: nothing before the time, and at it what boot recovery does. */
  lemma TimerMeans(u: World, v: World, r: Reply<bool>)
    requires Inv(u) && ExpiredAs(u, v, r, true)
    ensures var n := |u.rows|;
      if n == 0 || u.rows[n - 1].status.Committed? || u.rows[n - 1].status.RolledBack? then r == Ok(false) && v == u
      else
        var g := u.rows[n - 1]; var p := g.sum.previous;
        var due := g.status.Prepared? || g.boot != u.boot || (g.deadline.Some? && g.deadline.value <= u.clock);
        var own := u.kernel.Intact() && n in u.observed && u.kernel.Fingerprint() == Some(u.observed[n]);
        if !due then r == Ok(false) && v == u
        else if g.status.Prepared? && u.pointer == Some(Pointer(n, g.sum, g.checksum)) then
          && r == Ok(false)
          && v == u.(rows := u.rows[n - 1 := g.(status := Committed, deadline := None)], kernel := Established(u.kernel, g.checksum))
        else if p.Some? then
          && r == Ok(true)
          && v == u.(rows := u.rows[n - 1 := g.(status := RolledBack)], kernel := Established(u.kernel, p.value.policySum))
        else if u.kernel == Bare || own then
          r == Err(FirstRolledBack) && v == u.(rows := u.rows[n - 1 := g.(status := RolledBack)], kernel := Bare)
        else r == Err(AmbiguousFirst) && v == u
  {
    PendingOrDecided(u);
  }

  /** The generation the kernel should run, by its row: in force but not yet kept, or else the latest kept one. */
  predicate ShouldRun(w: World, id: nat) {
    var n := |w.rows|;
    if n > 0 && (w.rows[n - 1].status.Applied? || (w.rows[n - 1].status.Prepared? && w.pointer == Some(Pointer(n, w.rows[n - 1].sum, w.rows[n - 1].checksum)))) then id == n
    else
      && id <= n && (id != 0 ==> w.rows[id - 1].status.Committed?)
      && forall k :: id <= k < n ==> !w.rows[k].status.Committed?
  }

  lemma ShouldRunExpected(w: World, id: nat)
    requires Inv(w) && ShouldRun(w, id)
    ensures Expected(w) == id
  {
    PendingOrDecided(w);
    if Expected(w) != |w.rows| || id != |w.rows| {
      LatestIs(w.rows, |w.rows|, id);
    }
  }

  /**
   A calm reconcile of a world whose kernel should run this generation: drift is a candidate that was never
   installed, tables missing or without their markers, or another fingerprint than the one on record.
   Without repair it is only reported; with it an unfinished candidate is rolled back, unless it is a first
   one with tables that cannot be proved its own, and anything else is reinstalled.
   */
  lemma ReconcileMeans(u: World, v: World, repair: bool, r: Reply<Drift>, id: nat)
    requires Inv(u) && ReconciledAs(u, v, repair, r, true) && ShouldRun(u, id)
    ensures var n := |u.rows|; var candidate := n > 0 && u.rows[n - 1].status.Pending?;
      var applied := n > 0 && u.rows[n - 1].status.Applied?;
      var drift := candidate || !u.kernel.Intact() || (id != 0 && (id !in u.observed || u.kernel.Fingerprint() != Some(u.observed[id])));
      if !drift || !repair then r == Ok(Drift(drift, false)) && v == u
      else if candidate || applied then
        var g := u.rows[n - 1]; var p := g.sum.previous;
        if candidate && p.None? && u.kernel != Bare then r == Err(UnverifiedTables) && v == u
        else
          && r == Ok(Drift(true, true))
          && v == u.(rows := u.rows[n - 1 := g.(status := RolledBack)],
                     kernel := if p.None? then Bare else Ours(Generation(p.value.policySum)))
      else if id == 0 then r == Err(NothingCommitted) && v == u
      else r == Ok(Drift(true, true)) && v == u.(kernel := Ours(Generation(u.rows[id - 1].checksum)))
  {
    PendingOrDecided(u);
    ShouldRunExpected(u, id);
    hide LatestBelow, PendingBelow;
  }

  /** The guards refuse a candidate exactly while one is undecided, or where there are tables before the first success. */
  lemma GuardsMean(w: World)
    requires Inv(w)
    ensures GuardReply(w) == Err(StillPending) <==> exists k :: 0 <= k < |w.rows| && !w.rows[k].status.Committed? && !w.rows[k].status.RolledBack?
    ensures GuardReply(w) == Err(ForeignTables) <==>
      w.kernel != Bare && forall k :: 0 <= k < |w.rows| ==> w.rows[k].status.RolledBack?
    ensures GuardReply(w).Err? ==> GuardReply(w).why.StillPending? || GuardReply(w).why.ForeignTables?
  {
    PendingOrDecided(w);
    if forall k :: 0 <= k < |w.rows| ==> w.rows[k].status.RolledBack? {
      LatestIs(w.rows, |w.rows|, 0);
    }
  }

  /**
   A calm apply succeeds exactly when no row is undecided, something is committed or no product-named table
   exists, the id is new, and no other file stands under it: a script with this text and a snapshot of this
   boot that names the latest committed generation are the only ones that may.
   */
  lemma ApplyMeans(w: World, a: Artifact, id: nat)
    requires Inv(w) && id <= |w.rows| && (id != 0 ==> w.rows[id - 1].status.Committed?)
    requires forall k :: id <= k < |w.rows| ==> !w.rows[k].status.Committed?
    ensures var previous := if id == 0 then None else Some(Pointer(id, w.rows[id - 1].sum, w.rows[id - 1].checksum));
      ApplyReply(w, a).Ok? <==>
        && (forall k :: 0 <= k < |w.rows| ==> w.rows[k].status.Committed? || w.rows[k].status.RolledBack?)
        && (id != 0 || w.kernel == Bare) && a.generation > |w.rows|
        && (a.generation in w.scripts ==> w.scripts[a.generation] == a.script)
        && (a.generation in w.snapshots ==> w.snapshots[a.generation] == Snapshot(a.generation, a.script, previous, w.boot))
  {
    PendingOrDecided(w);
    LatestIs(w.rows, |w.rows|, id);
    if id != 0 {
      assert RowOk(w, id);
    }
  }

  class Manager {
    var world: World
    var firstUse: bool
    var plan: seq<Event>
    ghost const origin: World
    ghost const alone: bool
    ghost var log: seq<Action>

    /** The log is a run of the protocol from the origin to the present world. */
    ghost predicate Valid()
      reads this
    {
      && Inv(origin) && Allowed(origin, log) && Replay(origin, log) == world
      && Inv(world)
      && (firstUse ==> !OwnsTables(world))
      && (alone ==> Undisturbed(log))
    }

    constructor (w: World, events: seq<Event>, ghost undisturbed: bool)
      requires Inv(w)
      ensures Valid() && world == w && plan == events && !firstUse && origin == w && log == [] && alone == undisturbed
    {
      world, firstUse, plan, origin, log, alone := w, false, events, w, [], undisturbed;
    }

    // ---- Devices ----

    method Next() returns (e: Event)
      requires Valid()
      modifies this`plan
      ensures if old(plan) == [] then plan == [] && e == Event(Fine, 0) else e == old(plan)[0]
      ensures FailsOnce(old(plan)) ==> !Fatal(e.fault) && if e.fault.Fine? then FailsOnce(plan) else plan == []
    {
      if plan == [] {
        return Event(Fine, 0);
      }
      e := plan[0];
      plan := plan[1..];
    }

    /** One step of the protocol. */
    method Step(a: Action)
      requires Valid() && Enabled(world, a) && (firstUse ==> !OwnsTables(Perform(world, a)))
      requires alone ==> !a.Reboot? && !a.Interfere?
      modifies this`world, this`log
      ensures Valid() && old(log) <= log && world == Perform(old(world), a)
      ensures Abs(world) == Shadow(old(Abs(world)), a)
    {
      StepKeepsInv(world, a);
      StepRefines(world, a);
      ReplayAppend(origin, log, a);
      hide FailsOnce, Inv, Allowed, Replay, Abs, Enabled, Perform, Shadow, OwnsTables;
      log, world := log + [a], Perform(world, a);
    }

    /** The write takes effect, and then some time passes. */
    method Record(a: Action, elapse: nat)
      requires Valid() && Enabled(world, a) && (firstUse ==> !OwnsTables(Perform(world, a)))
      requires alone ==> !a.Reboot? && !a.Interfere?
      modifies this`world, this`log
      ensures Valid() && old(log) <= log
      ensures world == Perform(old(world), a).(clock := world.clock)
      ensures world.clock == Perform(old(world), a).clock + elapse
      ensures Abs(world) == Shadow(old(Abs(world)), a)
    {
      hide FailsOnce, Inv, Allowed, Replay, Abs, Enabled, Perform, Shadow, OwnsTables;
      Step(a);
      Wait(elapse);
    }

    /** Nothing durable happens, but time passes. */
    method Wait(elapse: nat)
      requires Valid()
      modifies this`world, this`log
      ensures Valid() && old(log) <= log
      ensures world == old(world).(clock := old(world).clock + elapse)
      ensures Abs(world) == old(Abs(world))
    {
      hide FailsOnce, Inv, Allowed, Replay, Abs;
      Step(Elapse(elapse));
    }

    /** A query, a guard or a callback: no durable effect, but it may fail or be the end of the process. */
    method Ask() returns (o: Outcome)
      requires Valid()
      modifies this
      ensures Valid() && old(log) <= log && Later(old(world), world) && Abs(world) == old(Abs(world))
      ensures o.Done? || o.Failed? || o.Dead?
      ensures old(plan) == [] ==> plan == [] && o.Done? && world == old(world)
      ensures old(plan) != [] ==> (o.Done? <==> old(plan)[0].fault.Fine?)
      ensures FailsOnce(old(plan)) ==> !o.Dead? && if o.Done? then FailsOnce(plan) else plan == []
      ensures !o.Dead? ==> firstUse == old(firstUse)
    {
      hide FailsOnce, Inv, Allowed, Replay, Abs, OwnsTables, Undisturbed;
      var e := Next();
      Wait(e.elapse);
      match e.fault
      case Fine => o := Done;
      case Refused => o := Failed;
      case Botched => o := Failed;
      case Lost => o := Failed;
      case DiesBefore => o := Dead; firstUse := false;
      case DiesAfter => o := Dead; firstUse := false;
    }

    /** One durable write: done, refused, lost after taking effect, or cut by the death of the process. */
    method Write(a: Action) returns (o: Outcome)
      requires Valid() && Enabled(world, a) && (firstUse ==> !OwnsTables(Perform(world, a)))
      requires !a.Reboot? && !a.Interfere?
      modifies this
      ensures Valid() && old(log) <= log
      ensures o.Done? ==> Later(Perform(old(world), a), world) && Abs(world) == Shadow(old(Abs(world)), a)
      ensures o.Failed? ==> Later(old(world), world) && Abs(world) == old(Abs(world))
      ensures o.Uncertain? ==> Later(Perform(old(world), a), world) && Abs(world) == Shadow(old(Abs(world)), a)
      ensures o.Dead? ==>
        || (Later(old(world), world) && Abs(world) == old(Abs(world)))
        || (Later(Perform(old(world), a), world) && Abs(world) == Shadow(old(Abs(world)), a))
      ensures old(plan) == [] ==> plan == [] && o.Done? && world == Perform(old(world), a)
      ensures old(plan) != [] ==> (o.Done? <==> old(plan)[0].fault.Fine?) && (o.Uncertain? <==> old(plan)[0].fault.Lost?)
      ensures FailsOnce(old(plan)) ==> !o.Dead? && if o.Done? then FailsOnce(plan) else plan == []
      ensures !o.Dead? ==> firstUse == old(firstUse)
    {
      hide FailsOnce, Inv, Allowed, Replay, Abs, OwnsTables, Undisturbed, Perform, Enabled, Shadow;
      var e := Next();
      match e.fault
      case Fine => Record(a, e.elapse); o := Done;
      case Refused => Wait(e.elapse); o := Failed;
      case Botched => Wait(e.elapse); o := Failed;
      case Lost => Record(a, e.elapse); o := Uncertain;
      case DiesBefore => Wait(e.elapse); o := Dead; firstUse := false;
      case DiesAfter => Record(a, e.elapse); o := Dead; firstUse := false;
    }

    /**
     The only way scripts reach the kernel. The transaction replaces whatever product-named tables
     exist, so until the first success on a fresh installation it refuses to replace any.
     */
    method Load(l: Loaded) returns (o: Outcome, attempted: bool)
      requires Valid() && MayLoad(world, l)
      requires world.kernel.Altered? && !OwnsTables(world) ==> firstUse
      modifies this
      ensures Valid() && old(log) <= log && Abs(world) == old(Abs(world))
      ensures Later(old(world).(kernel := world.kernel), world)
      ensures world.kernel == old(world.kernel) || world.kernel == Ours(l)
      ensures o.Done? ==> attempted && world.kernel == Ours(l) && !firstUse
      ensures !attempted ==> world.kernel == old(world.kernel)
      ensures old(plan) == [] ==> plan == [] && world == old(world).(kernel := world.kernel)
      ensures old(plan) == [] ==> if old(firstUse) && old(world.kernel).Existing() > 0 then o.Failed? && !attempted else o.Done?
      ensures FailsOnce(old(plan)) ==> (o.Done? ==> FailsOnce(plan)) && (attempted && !o.Done? ==> plan == []) && !o.Dead?
      ensures FailsOnce(old(plan)) && !o.Done? && !attempted ==> plan == [] || (old(firstUse) && old(world.kernel).Existing() > 0)
    {
      hide FailsOnce, Inv, Allowed, Replay, Abs;
      if firstUse && world.kernel.Existing() > 0 {
        return Failed, false;
      }
      if plan != [] && plan[0].fault.Refused? {
        o := Ask();
        return Failed, false;
      }
      o := Write(Install(l));
      attempted := true;
      if o.Done? {
        firstUse := false;
      }
    }

    /** Removes whatever product-named tables exist. */
    method DestroyOwned() returns (o: Outcome)
      requires Valid() && LastKnownGood(world.rows) == 0
      requires world.kernel.Altered? ==> OwnsTables(world)
      modifies this
      ensures Valid() && old(log) <= log && Abs(world) == old(Abs(world))
      ensures Later(old(world).(kernel := world.kernel), world)
      ensures world.kernel == old(world.kernel) || world.kernel == Bare
      ensures o.Done? ==> world.kernel == Bare
      ensures old(plan) == [] ==> plan == [] && o.Done? && world == old(world).(kernel := Bare)
    {
      if world.kernel.Existing() == 0 {
        o := Ask();
        return;
      }
      o := Write(Destroy);
    }

    /** Runs the restore callback; when it fails, installs the emergency default deny instead. */
    method RestoreRuntimeOrDeny() returns (o: Outcome)
      requires Valid() && OwnsTables(world)
      modifies this
      ensures Valid() && old(log) <= log && Abs(world) == old(Abs(world))
      ensures Later(old(world).(kernel := world.kernel), world)
      ensures o.Done? ==> world.kernel == old(world.kernel)
      ensures o.Done? || o.Failed? || o.Dead?
      ensures old(plan) == [] ==> plan == [] && o.Done? && world == old(world)
    {
      o := Ask();
      if o.Failed? {
        var denied, _ := Load(EmergencyDeny);
        o := if denied.Dead? then Dead else Failed;
      }
    }

    /** Records a roll-back whose kernel work is done. */
    method ConcludeRollback(id: nat) returns (r: Reply<()>)
      requires Valid() && Newest(world, id) && InFlight(world.rows[id - 1].status) && !Published(world)
      requires Restored(world)
      requires world.rows[id - 1].sum.previous.None? ==> world.pointer.None?
      modifies this
      ensures Valid() && old(log) <= log && Abs(world).kept == old(Abs(world).kept)
      ensures Decides(old(world), world) && world.kernel == old(world.kernel)
      ensures r.Err? ==> !Impossible(r.why)
      ensures r.Ok? ==> Later(Settle(old(world)), world)
      ensures old(plan) == [] ==> plan == [] && r == Ok(()) && world == Settle(old(world))
    {
      if !OwnsTables(world) {
        UnownedStays(world, id);
      }
      hide FailsOnce, Inv, Allowed, Replay, Abs, Undisturbed, LatestBelow, PendingBelow, Decides, Settle, Restored;
      var o := Write(MarkRolledBack(id));
      ConcludedRow(old(world), world, id);
      if o.Done? {
        // A first generation's pointer file is cleared too; there is none to remove.
        o := Ask();
        ConcludedRow(old(world), world, id);
      }
      r := if o.Done? then Ok(()) else Err(ErrorOf(o));
    }

    /** Removes a first generation's tables if it is known to own them. */
    method ClearFirst(id: nat) returns (r: Reply<()>)
      requires Valid() && Newest(world, id) && InFlight(world.rows[id - 1].status)
      requires world.rows[id - 1].sum.previous.None?
      modifies this
      ensures Valid() && old(log) <= log && Abs(world) == old(Abs(world)) && KernelOnly(old(world), world)
      ensures r.Err? ==> r.why.DeviceError? || r.why.ProcessDied? || (r.why.UnverifiedTables? && UnverifiedFirst(old(world)) && world.kernel == old(world.kernel))
      ensures r.Ok? ==> world.kernel == Bare && !UnverifiedFirst(old(world))
      ensures old(plan) == [] ==> plan == [] && world.clock == old(world.clock)
      ensures old(plan) == [] ==> if UnverifiedFirst(old(world)) then r == Err(UnverifiedTables) && world == old(world) else r.Ok?
    {
      PredecessorIsCommitted(world);
      hide FailsOnce, Inv, Allowed, Replay, Abs;
      var o := Ask();
      if !o.Done? {
        return Err(ErrorOf(o));
      }
      if world.rows[id - 1].status.Pending? {
        return if world.kernel.Existing() > 0 then Err(UnverifiedTables) else Ok(());
      }
      o := DestroyOwned();
      r := if o.Done? then Ok(()) else Err(ErrorOf(o));
    }

    /** Reinstalls the exact committed predecessor and its runtime state. */
    method RestorePredecessor(id: nat) returns (r: Reply<()>)
      requires Valid() && Newest(world, id) && InFlight(world.rows[id - 1].status) && !Published(world)
      requires world.rows[id - 1].sum.previous.Some?
      modifies this
      ensures Valid() && old(log) <= log && Abs(world) == old(Abs(world)) && KernelOnly(old(world), world)
      ensures r.Err? ==> r.why.DeviceError? || r.why.ProcessDied?
      ensures r.Ok? ==> world.kernel == Ours(Generation(old(world).rows[id - 1].sum.previous.value.policySum))
      ensures old(plan) == [] ==> plan == [] && r.Ok? && world.clock == old(world.clock)
    {
      PredecessorIsCommitted(world);
      var p := world.rows[id - 1].previous.value;
      SnapshotsAlwaysVerify(world, p);
      hide FailsOnce, Inv, Allowed, Replay, Abs, Undisturbed, LatestBelow, Published, Shadow, Perform;
      var o := Ask();
      if !o.Done? {
        return Err(ErrorOf(o));
      }
      if !world.rows[p - 1].status.Committed? || world.rows[id - 1].sum.previous.None? {
        return Err(BadPredecessor);
      }
      if !SnapshotVerified(world, p, false) || world.pointer != Some(PointerTo(world.snapshots[p])) {
        return Err(BadSnapshot);
      }
      o := Reinstate(Generation(world.snapshots[p].script));
      r := if o.Done? then Ok(()) else Err(ErrorOf(o));
    }

    /** Installs a script and its runtime state. */
    method Reinstate(l: Loaded) returns (o: Outcome)
      requires Valid() && MayLoad(world, l) && OwnsTables(world)
      modifies this
      ensures Valid() && old(log) <= log && Abs(world) == old(Abs(world)) && KernelOnly(old(world), world)
      ensures o.Done? ==> world.kernel == Ours(l)
      ensures old(plan) == [] ==> plan == [] && o.Done? && world.clock == old(world.clock)
    {
      hide FailsOnce, Inv, Allowed, Replay, Abs, Undisturbed, LatestBelow;
      o := Ask();
      if o.Done? {
        var attempted: bool;
        o, attempted := Load(l);
      }
      if o.Done? {
        o := RestoreRuntimeOrDeny();
      }
    }

    /** Restores what ran before an in-flight generation, or refuses to guess; the caller holds the lock. */
    method RollbackLocked(id: nat) returns (r: Reply<()>)
      requires Valid()
      modifies this
      ensures Valid() && old(log) <= log && Abs(world).kept == old(Abs(world).kept)
      ensures old(plan) == [] ==> plan == []
      ensures RolledBackAs(old(world), world, id, r, old(plan) == [])
    {
      NewestInFlight(world, id);
      hide FailsOnce, Inv, Allowed, Replay, Abs, RolledBackAs;
      ghost var u, calm := world, plan == [];
      var o := Ask();
      ghost var t, still := world, plan == [];
      if !o.Done? {
        r := Err(ErrorOf(o));
        RolledBackRefused(u, t, id, r.why);
      } else if 1 <= id <= |world.rows| && InFlight(world.rows[id - 1].status) {
        r := RollbackInFlight(id);
        RolledBackLater(u, t, world, id, r, calm, still);
      } else {
        r := if !(1 <= id <= |world.rows|) then Err(UnknownGeneration)
             else if world.rows[id - 1].status.RolledBack? then Ok(())
             else Err(AlreadyCommitted);
        RolledBackAlready(u, t, id, calm);
      }
    }

    method RollbackInFlight(id: nat) returns (r: Reply<()>)
      requires Valid() && Newest(world, id) && InFlight(world.rows[id - 1].status)
      modifies this
      ensures Valid() && old(log) <= log && Abs(world).kept == old(Abs(world).kept)
      ensures old(plan) == [] ==> plan == []
      ensures RolledBackAs(old(world), world, id, r, old(plan) == [])
    {
      SnapshotsAlwaysVerify(world, id);
      PredecessorIsCommitted(world);
      hide FailsOnce, Inv, Allowed, Replay, Abs, RolledBackAs;
      ghost var u, calm := world, plan == [];
      var g := world.rows[id - 1];
      var o := Ask();
      ghost var t, still := world, plan == [];
      if !o.Done? {
        r := Err(ErrorOf(o));
        RolledBackRefused(u, t, id, r.why);
        return;
      }
      if !SnapshotVerified(world, id, g.status.Prepared?) {
        return Err(BadSnapshot);
      }
      var s := world.snapshots[id];
      if g.status.Prepared? && world.pointer == Some(PointerTo(s)) {
        r := FinishPublished(id);
        RolledBackLater(u, t, world, id, r, calm, still);
        return;
      }
      if world.pointer != s.previous {
        return Err(AmbiguousPointer);
      }
      r := RollbackUnpublished(id);
      RolledBackLater(u, t, world, id, r, calm, still);
    }

    /** The pointer rename won: finalize, and report that there is nothing left to roll back. */
    method FinishPublished(id: nat) returns (r: Reply<()>)
      requires Valid() && Newest(world, id) && Published(world)
      modifies this
      ensures Valid() && old(log) <= log && Abs(world).kept == old(Abs(world).kept)
      ensures old(plan) == [] ==> plan == []
      ensures RolledBackAs(old(world), world, id, r, old(plan) == [])
    {
      hide FailsOnce, Inv, Allowed, Replay, Abs;
      var o := Write(Finalize(id));
      r := Err(if o.Done? then AlreadyPublished else ErrorOf(o));
    }

    method RollbackUnpublished(id: nat) returns (r: Reply<()>)
      requires Valid() && Newest(world, id) && InFlight(world.rows[id - 1].status) && !Published(world)
      modifies this
      ensures Valid() && old(log) <= log && Abs(world).kept == old(Abs(world).kept)
      ensures old(plan) == [] ==> plan == []
      ensures RolledBackAs(old(world), world, id, r, old(plan) == [])
    {
      PredecessorIsCommitted(world);
      hide FailsOnce, Inv, Allowed, Replay, Abs, RolledBackAs;
      ghost var u, calm := world, plan == [];
      if world.rows[id - 1].previous.None? {
        r := ClearFirst(id);
      } else {
        r := RestorePredecessor(id);
      }
      ghost var t := world;
      if r.Ok? {
        r := ConcludeRollback(id);
        RolledBackDone(u, t, world, id, r, calm);
      } else if r.why.UnverifiedTables? {
        RolledBackUnverified(u, t, id, calm);
      } else {
        RolledBackRefused(u, t, id, r.why);
      }
    }

    /** The pointer rename and the final status; the pointer file and the deadline are prepared. */
    method PublishAndFinalize(id: nat) returns (o: Outcome)
      requires Valid() && Enabled(world, Publish(id))
      modifies this
      ensures Valid() && old(log) <= log && old(Abs(world)).kept <= Abs(world).kept
      ensures NewestMoves(old(world), world)
      ensures o.Done? ==> Later(Settle(old(world).(pointer := Some(PointerTo(old(world).rows[id - 1].sum)))), world)
      ensures old(plan) == [] ==> plan == [] && o.Done? && world.clock == old(world.clock)
    {
      hide FailsOnce, Inv, Allowed, Replay, Abs;
      o := Write(Publish(id));
      if o.Done? {
        // From here on nothing moves the pointer back; recovery can only finalize.
        o := Write(Finalize(id));
      }
    }

    /** The last deadline read and the rename that must follow it with nothing in between. */
    method CommitPrepared(id: nat) returns (r: Reply<()>)
      requires Valid() && Newest(world, id) && world.rows[id - 1].status.Prepared?
      requires world.pointer == world.rows[id - 1].sum.previous
      modifies this
      ensures Valid() && old(log) <= log && old(Abs(world)).kept <= Abs(world).kept
      ensures old(plan) == [] ==> plan == []
      ensures CommitPreparedAs(old(world), world, id, r, old(plan) == [])
    {
      hide FailsOnce, Inv, Allowed, Replay, Abs, CommitPreparedAs, RolledBackAs, Settle, Undisturbed;
      ghost var u, calm := world, plan == [];
      var o := Ask();
      if !o.Done? {
        PreparedStopped(u, world, id, ErrorOf(o));
        return Err(ErrorOf(o));
      }
      var deadline := world.rows[id - 1].deadline;
      if deadline.Some? && deadline.value <= world.clock {
        o := Ask();
        if !o.Done? {
          PreparedStopped(u, world, id, ErrorOf(o));
          return Err(ErrorOf(o));
        }
        ghost var t, still := world, plan == [];
        var q := RollbackLocked(id);
        PreparedExpired(u, t, world, id, q, calm, still);
        return if q.Ok? then Err(Expired) else q;
      }
      ghost var t := world;
      o := PublishAndFinalize(id);
      r := if o.Done? then Ok(()) else Err(ErrorOf(o));
      PreparedPublished(u, t, world, id, r, calm);
    }

    /** Publishes an applied generation; the caller holds the lock and has checked the kernel. */
    method CommitLocked(id: nat) returns (r: Reply<()>)
      requires Valid() && Newest(world, id) && world.rows[id - 1].status.Applied? && id in world.observed
      modifies this
      ensures Valid() && old(log) <= log && old(Abs(world)).kept <= Abs(world).kept
      ensures old(plan) == [] ==> plan == []
      ensures CommitLockedAs(old(world), world, id, r, old(plan) == [])
    {
      hide FailsOnce, Inv, Allowed, Replay, Abs, CommitPreparedAs, CommitLockedAs;
      ghost var u, calm := world, plan == [];
      r := PrepareLocked(id);
      ghost var t, still := world, plan == [];
      if r.Ok? {
        r := CommitPrepared(id);
        CommitLockedFinished(u, t, world, id, r, calm, still);
      } else {
        CommitLockedStopped(u, t, id, r.why);
      }
    }

    /** Compares the snapshot with the pointer, then marks the row prepared. */
    method PrepareLocked(id: nat) returns (r: Reply<()>)
      requires Valid() && Newest(world, id) && world.rows[id - 1].status.Applied? && id in world.observed
      modifies this
      ensures Valid() && old(log) <= log && Abs(world) == old(Abs(world))
      ensures Later(old(world), world) || Later(PreparedWorld(old(world), id), world)
      ensures r.Err? ==> r.why.DeviceError? || r.why.ProcessDied?
      ensures r.Ok? ==> Later(PreparedWorld(old(world), id), world) && world.pointer == world.rows[id - 1].sum.previous
      ensures old(plan) == [] ==> plan == [] && r.Ok? && world == PreparedWorld(old(world), id)
    {
      SnapshotsAlwaysVerify(world, id);
      PredecessorIsCommitted(world);
      assert !firstUse;
      hide FailsOnce, Inv, Allowed, Replay, Abs, OwnsTables, Undisturbed, Shadow, LatestBelow;
      var o := Ask();
      if !o.Done? {
        return Err(ErrorOf(o));
      }
      if id !in world.snapshots {
        return Err(BadSnapshot);
      }
      if world.snapshots[id].previous != world.pointer {
        return Err(AmbiguousPointer);
      }
      o := Write(PrepareCommit(id));
      r := if o.Done? then Ok(()) else Err(ErrorOf(o));
    }

    /** Confirms a safe apply: checks the deadline and the kernel, then publishes. */
    method Commit(id: nat) returns (r: Reply<()>)
      requires Valid()
      modifies this
      ensures Valid() && old(log) <= log && old(Abs(world)).kept <= Abs(world).kept
      ensures old(plan) == [] ==> plan == []
      ensures CommittedAs(old(world), world, id, r, old(plan) == [])
      ensures old(plan) == [] && 1 <= id == |old(world).rows| && old(world).rows[id - 1].status.Applied? ==>
        var g := old(world).rows[id - 1];
        && (r == Err(Expired) <==> g.deadline.Some? && g.deadline.value <= old(world).clock)
        && (r == Ok(()) <==>
          && (g.deadline.Some? ==> old(world).clock < g.deadline.value)
          && id in old(world).observed && old(world).kernel.Fingerprint() == Some(old(world).observed[id]))
    {
      NewestInFlight(world, id);
      hide FailsOnce, Inv, Allowed, Replay, Abs, CommittedAs, CommitReply, PendingBelow;
      ghost var u, calm := world, plan == [];
      var o := Ask();
      ghost var t := world;
      if !o.Done? {
        r := Err(ErrorOf(o));
        CommittedRefused(u, t, id, r.why, false);
      } else if id == 0 || PendingId(world.rows) != id {
        r := Err(NotPending);
        CommittedNotApplied(u, t, id, calm);
      } else if !world.rows[id - 1].status.Applied? {
        r := Err(NotApplied);
        CommittedNotApplied(u, t, id, calm);
      } else {
        r := CommitApplied(id);
        CommittedLater(u, t, world, id, r, calm);
      }
      if calm && 1 <= id == |u.rows| && u.rows[id - 1].status.Applied? {
        CommitMeans(u, world, id, r);
      }
    }

    method CommitApplied(id: nat) returns (r: Reply<()>)
      requires Valid() && Newest(world, id) && world.rows[id - 1].status.Applied?
      modifies this
      ensures Valid() && old(log) <= log && old(Abs(world)).kept <= Abs(world).kept
      ensures old(plan) == [] ==> plan == []
      ensures CommittedAs(old(world), world, id, r, old(plan) == [])
    {
      PendingIsNewest(world);
      hide FailsOnce, Inv, Allowed, Replay, Abs, CommittedAs, CommitLockedAs, RolledBackAs, LatestBelow, PendingBelow, Undisturbed, OwnsTables, Shadow, NewestMoves;
      ghost var u, calm := world, plan == [];
      var deadline := world.rows[id - 1].deadline;
      if deadline.Some? && deadline.value <= world.clock {
        var q := RollbackLocked(id);
        CommittedByRollback(u, u, world, id, q, Expired, calm);
        return if q.Ok? then Err(Expired) else q;
      }
      r := CommitInTime(id);
    }

    method CommitInTime(id: nat) returns (r: Reply<()>)
      requires Valid() && Newest(world, id) && world.rows[id - 1].status.Applied? && !PastDeadline(world, id)
      modifies this
      ensures Valid() && old(log) <= log && old(Abs(world)).kept <= Abs(world).kept
      ensures old(plan) == [] ==> plan == []
      ensures CommittedAs(old(world), world, id, r, old(plan) == [])
    {
      PendingIsNewest(world);
      hide FailsOnce, Inv, Allowed, Replay, Abs, CommittedAs, CommitLockedAs, RolledBackAs, LatestBelow, PendingBelow, Undisturbed, OwnsTables,
        Shadow, NewestMoves, PastDeadline;
      ghost var u, calm := world, plan == [];
      var o := Ask();
      ghost var t := world;
      if o.Dead? {
        CommittedRefused(u, t, id, ProcessDied, false);
        return Err(ProcessDied);
      }
      if o.Failed? || id !in world.observed || world.kernel.Fingerprint() != Some(world.observed[id]) {
        var q := RollbackLocked(id);
        CommittedByRollback(u, t, world, id, q, IntegrityLost, calm);
        return if q.Ok? then Err(IntegrityLost) else q;
      }
      r := CommitLocked(id);
      CommittedByLocked(u, t, world, id, r, calm);
    }

    /** Verifies that the kernel runs a generation, and installs it if it does not. */
    method Establish(id: nat, script: string) returns (r: Reply<()>)
      requires Valid() && 1 <= id <= |world.rows| && OwnsTables(world) && MayLoad(world, Generation(script))
      requires id in world.observed && world.observed[id] == PrintOf(Generation(script))
      modifies this
      ensures Valid() && old(log) <= log && Abs(world) == old(Abs(world)) && KernelOnly(old(world), world)
      ensures r.Err? ==> r.why.DeviceError? || r.why.ProcessDied?
      ensures r.Ok? ==> Matches(world, id)
      ensures old(plan) == [] ==> plan == [] && r == Ok(()) && world == old(world).(kernel := Established(old(world).kernel, script))
    {
      hide FailsOnce, Inv, Allowed, Replay, Abs;
      var o := Ask();
      if !o.Done? {
        return Err(ErrorOf(o));
      }
      if id !in world.observed {
        return Err(NoFingerprint);
      }
      o := Ask();
      if o.Dead? {
        return Err(ProcessDied);
      }
      if o.Done? && world.kernel.Intact() && world.kernel.Fingerprint() == Some(world.observed[id]) {
        return Ok(());
      }
      var attempted: bool;
      o, attempted := Load(Generation(script));
      if o.Done? {
        o := Ask();
      }
      if !o.Done? {
        return Err(ErrorOf(o));
      }
      if !world.kernel.Intact() || world.kernel.Fingerprint() != Some(world.observed[id]) {
        return Err(FingerprintMismatch);
      }
      r := Ok(());
    }

    /** Re-reads the pointer after the kernel work, then makes the final write. */
    method DecideAtBoot(expected: Option<Pointer>, a: Action) returns (r: Reply<()>)
      requires Valid() && Enabled(world, a) && (a.Finalize? || a.MarkRolledBack?)
      requires world.pointer == expected && (firstUse ==> !OwnsTables(Perform(world, a)))
      modifies this
      ensures Valid() && old(log) <= log && Abs(world).kept == old(Abs(world).kept)
      ensures Later(old(world), world) || Later(Perform(old(world), a), world)
      ensures r.Err? ==> r.why.DeviceError? || r.why.ProcessDied?
      ensures r.Ok? ==> Later(Perform(old(world), a), world)
      ensures old(plan) == [] ==> plan == [] && r == Ok(()) && world == Perform(old(world), a)
    {
      hide FailsOnce, Inv, Allowed, Replay, Abs;
      var o := Ask();
      if o.Done? {
        if world.pointer != expected {
          return Err(AmbiguousPointer);
        }
        o := Write(a);
      }
      r := if o.Done? then Ok(()) else Err(ErrorOf(o));
    }

    /** The rename won before the crash: put the generation back in the kernel, then finalize its row. */
    method FinishAtBoot(id: nat) returns (r: Reply<Recovery>)
      requires Valid() && Newest(world, id) && Published(world)
      modifies this
      ensures Valid() && old(log) <= log && Abs(world).kept == old(Abs(world).kept)
      ensures old(plan) == [] ==> plan == []
      ensures PendingRecoveredAs(old(world), world, r, old(plan) == [])
    {
      SnapshotsAlwaysVerify(world, id);
      PendingIsNewest(world);
      PreparedHasHash(world);
      ghost var u, calm := world, plan == [];
      hide FailsOnce, Inv, Allowed, Replay, Abs, PendingRecoveredAs, Settle, Matches;
      var q := Establish(id, world.rows[id - 1].checksum);
      if q.Err? {
        r := Err(q.why);
        PendingRefused(u, world, r.why);
        return;
      }
      ghost var t := world;
      q := DecideAtBoot(Some(PointerTo(world.rows[id - 1].sum)), Finalize(id));
      if q.Ok? {
        r := Ok(FinalizedPrepared(id));
        PendingFinished(u, t, world, calm);
      } else {
        r := Err(q.why);
        PendingStopped(u, t, world, Finalize(id), r.why);
      }
    }

    /** Checks the predecessor's row and files, then puts it back in the kernel with its runtime state. */
    method ReturnToPredecessor(id: nat, before: Pointer) returns (r: Reply<()>)
      requires Valid() && Newest(world, id) && InFlight(world.rows[id - 1].status) && !Published(world)
      requires world.rows[id - 1].sum.previous == Some(before)
      modifies this
      ensures Valid() && old(log) <= log && Abs(world) == old(Abs(world)) && KernelOnly(old(world), world)
      ensures r.Err? ==> r.why.DeviceError? || r.why.ProcessDied?
      ensures r.Ok? ==> Matches(world, before.generation) && Restored(world)
      ensures old(plan) == [] ==> plan == [] && r == Ok(()) && world == old(world).(kernel := Established(old(world).kernel, before.policySum))
    {
      PredecessorIsCommitted(world);
      var p := before.generation;
      SnapshotsAlwaysVerify(world, LastKnownGood(world.rows));
      hide FailsOnce, Inv, Allowed, Replay, Abs, LatestBelow, Undisturbed;
      var o := Ask();
      if !o.Done? {
        return Err(ErrorOf(o));
      }
      var g := world.rows[p - 1];
      if !g.status.Committed? || g.checksum != before.policySum || g.sum != before.snapshotSum {
        return Err(BadPredecessor);
      }
      if !SnapshotVerified(world, p, false) || world.pointer != Some(before) {
        return Err(BadSnapshot);
      }
      r := Establish(p, world.snapshots[p].script);
      if r.Ok? {
        o := RestoreRuntimeOrDeny();
        r := if o.Done? then Ok(()) else Err(ErrorOf(o));
      }
    }

    /** Puts the exact committed predecessor back, then records the roll-back. */
    method RestorePredecessorAtBoot(id: nat) returns (r: Reply<Recovery>)
      requires Valid() && Newest(world, id) && InFlight(world.rows[id - 1].status) && !Published(world)
      requires Due(world) && world.rows[id - 1].sum.previous.Some?
      modifies this
      ensures Valid() && old(log) <= log && Abs(world).kept == old(Abs(world).kept)
      ensures old(plan) == [] ==> plan == []
      ensures PendingRecoveredAs(old(world), world, r, old(plan) == [])
    {
      PendingIsNewest(world);
      PredecessorIsCommitted(world);
      ghost var u, calm := world, plan == [];
      var before := world.rows[id - 1].sum.previous.value;
      hide FailsOnce, Inv, Allowed, Replay, Abs, PendingRecoveredAs, Settle, Matches, LatestBelow;
      var q := ReturnToPredecessor(id, before);
      if q.Err? {
        r := Err(q.why);
        PendingRefused(u, world, r.why);
        return;
      }
      ghost var t := world;
      q := DecideAtBoot(Some(before), MarkRolledBack(id));
      if q.Ok? {
        r := Ok(RolledBackTo(before.generation));
        PendingRolledBack(u, t, world, calm);
      } else {
        r := Err(q.why);
        PendingStopped(u, t, world, MarkRolledBack(id), r.why);
      }
    }

    /** Removes tables proved to be the first generation's own, or finds none, or refuses. */
    method ClearFirstAtBoot(id: nat) returns (r: Reply<()>)
      requires Valid() && Newest(world, id) && InFlight(world.rows[id - 1].status)
      requires world.rows[id - 1].sum.previous.None?
      modifies this
      ensures Valid() && old(log) <= log && Abs(world) == old(Abs(world)) && KernelOnly(old(world), world)
      ensures r.Err? && !r.why.AmbiguousFirst? ==> r.why.DeviceError? || r.why.ProcessDied?
      ensures world.kernel == old(world).kernel || (FirstRemovable(old(world)) && world.kernel == Bare)
      ensures r.Err? && r.why.AmbiguousFirst? ==> !FirstRemovable(old(world)) && world.kernel == old(world).kernel
      ensures r.Ok? ==> world.kernel == Bare && FirstRemovable(old(world))
      ensures old(plan) == [] ==> plan == [] && world.clock == old(world).clock
      ensures old(plan) == [] ==> if FirstRemovable(old(world)) then r.Ok? else r == Err(AmbiguousFirst)
    {
      PredecessorIsCommitted(world);
      hide FailsOnce, Inv, Allowed, Replay, Abs;
      var o := Ask();
      if o.Done? && world.kernel.Existing() > 0 {
        o := Ask();
        if o.Done? {
          if !world.kernel.Intact() || id !in world.observed || world.kernel.Fingerprint() != Some(world.observed[id]) {
            return Err(AmbiguousFirst);
          }
          o := DestroyOwned();
        }
      }
      r := if o.Done? then Ok(()) else Err(ErrorOf(o));
    }

    /** A first generation is rolled back only if it left no tables, or tables proved to be its own. */
    method RollbackFirstAtBoot(id: nat) returns (r: Reply<Recovery>)
      requires Valid() && Newest(world, id) && InFlight(world.rows[id - 1].status) && !Published(world)
      requires Due(world) && world.rows[id - 1].sum.previous.None?
      modifies this
      ensures Valid() && old(log) <= log && Abs(world).kept == old(Abs(world).kept)
      ensures old(plan) == [] ==> plan == []
      ensures PendingRecoveredAs(old(world), world, r, old(plan) == [])
    {
      PendingIsNewest(world);
      PredecessorIsCommitted(world);
      ghost var u, calm := world, plan == [];
      hide FailsOnce, Allowed, Replay, Abs, PendingRecoveredAs, Settle, FirstRemovable;
      var q := ClearFirstAtBoot(id);
      if q.Err? {
        r := Err(q.why);
        if q.why.AmbiguousFirst? {
          PendingAmbiguous(u, world, calm);
        } else {
          PendingRefused(u, world, r.why);
        }
        return;
      }
      ghost var t := world;
      if !OwnsTables(world) {
        UnownedStays(world, id);
      }
      hide Inv;
      q := DecideAtBoot(None, MarkRolledBack(id));
      if q.Ok? {
        r := Err(FirstRolledBack);
        PendingFirstRolledBack(u, t, world, calm);
      } else {
        r := Err(q.why);
        PendingStopped(u, t, world, MarkRolledBack(id), r.why);
      }
    }

    /** Decides the in-flight generation from the pointer, or reports that it is not due yet. */
    method RecoverPending(id: nat) returns (r: Reply<Recovery>)
      requires Valid() && Newest(world, id) && InFlight(world.rows[id - 1].status)
      modifies this
      ensures Valid() && old(log) <= log && Abs(world).kept == old(Abs(world).kept)
      ensures old(plan) == [] ==> plan == []
      ensures PendingRecoveredAs(old(world), world, r, old(plan) == [])
    {
      SnapshotsAlwaysVerify(world, id);
      PendingIsNewest(world);
      PredecessorIsCommitted(world);
      ghost var u, calm := world, plan == [];
      hide FailsOnce, Inv, Allowed, Replay, Abs, PendingRecoveredAs;
      var o := Ask();
      if !o.Done? {
        r := Err(ErrorOf(o));
        PendingRefused(u, world, r.why);
        return;
      }
      var g := world.rows[id - 1];
      if !SnapshotVerified(world, id, g.status.Prepared?) {
        return Err(BadSnapshot);
      }
      var s := world.snapshots[id];
      if g.status.Prepared? && world.pointer == Some(PointerTo(s)) {
        ghost var t, still := world, plan == [];
        r := FinishAtBoot(id);
        PendingLater(u, t, world, r, calm, still);
        return;
      }
      if world.pointer != s.previous {
        return Err(AmbiguousPointer);
      }
      ghost var t, still := world, plan == [];
      r := RecoverUnpublished(id);
      PendingLater(u, t, world, r, calm, still);
    }

    /** The rename never happened: roll back, unless the candidate is still within its time. */
    method RecoverUnpublished(id: nat) returns (r: Reply<Recovery>)
      requires Valid() && Newest(world, id) && InFlight(world.rows[id - 1].status) && !Published(world)
      modifies this
      ensures Valid() && old(log) <= log && Abs(world).kept == old(Abs(world).kept)
      ensures old(plan) == [] ==> plan == []
      ensures PendingRecoveredAs(old(world), world, r, old(plan) == [])
    {
      hide FailsOnce, Inv, Allowed, Replay, Abs, PendingRecoveredAs;
      ghost var u, calm := world, plan == [];
      var g := world.rows[id - 1];
      if !g.status.Prepared? {
        var o := Ask();
        if !o.Done? {
          r := Err(ErrorOf(o));
          PendingRefused(u, world, r.why);
          return;
        }
        if g.boot == world.boot && (g.deadline.None? || world.clock < g.deadline.value) {
          PendingNotDue(u, world, calm);
          return Err(StillLive);
        }
      }
      ghost var t, still := world, plan == [];
      if g.sum.previous.Some? {
        r := RestorePredecessorAtBoot(id);
      } else {
        r := RollbackFirstAtBoot(id);
      }
      PendingLater(u, t, world, r, calm, still);
    }

    /** With nothing in flight: the pointer's generation, checked against every record and restored. */
    method RestoreCommitted() returns (r: Reply<Recovery>)
      requires Valid() && PendingId(world.rows) == 0
      modifies this
      ensures Valid() && old(log) <= log && Abs(world).kept == old(Abs(world).kept)
      ensures old(plan) == [] ==> plan == []
      ensures RecoveredAs(old(world), world, r, old(plan) == [])
    {
      CommittedPointer(world);
      ghost var u, calm := world, plan == [];
      if world.pointer.None? {
        RecoveredRefused(u, world, NoPointer, calm);
        return Err(NoPointer);
      }
      var current := world.pointer.value;
      var g := current.generation;
      SnapshotsAlwaysVerify(world, g);
      hide FailsOnce, Inv, Allowed, Replay, Abs, RecoveredAs, Matches;
      if !world.rows[g - 1].status.Committed? {
        return Err(NotCommitted);
      }
      if LastKnownGood(world.rows) != g {
        return Err(NotLatest);
      }
      if !SnapshotVerified(world, g, false) || PointerTo(world.snapshots[g]) != current {
        return Err(BadSnapshot);
      }
      var q := Establish(g, world.snapshots[g].script);
      if q.Ok? {
        // The pointer is read again, and the result audited durably.
        var o := Ask();
        if o.Done? && world.pointer != Some(current) {
          return Err(AmbiguousPointer);
        }
        q := if o.Done? then Ok(()) else Err(ErrorOf(o));
      }
      if q.Ok? {
        r := Ok(RestoredCommitted(g));
        RecoveredCommitted(u, world, calm);
      } else {
        r := Err(q.why);
        RecoveredRefused(u, world, r.why, false);
      }
    }

    /** Resolves the durable state at boot: decide what is in flight, or restore what is committed. */
    method RecoverAtBoot() returns (r: Reply<Recovery>)
      requires Valid()
      modifies this
      ensures Valid() && old(log) <= log && Abs(world).kept == old(Abs(world).kept)
      ensures old(plan) == [] ==> plan == []
      ensures RecoveredAs(old(world), world, r, old(plan) == [])
    {
      PendingIsNewest(world);
      hide FailsOnce, Inv, Allowed, Replay, Abs, RecoveredAs, PendingRecoveredAs, PendingBelow;
      ghost var u, calm := world, plan == [];
      var o := Ask();
      ghost var t := world;
      if !o.Done? {
        r := Err(ErrorOf(o));
        RecoveredRefused(u, t, r.why, false);
      } else if PendingId(world.rows) != 0 {
        r := RecoverPending(PendingId(world.rows));
        RecoveredFromPending(u, t, world, r, calm);
      } else {
        r := RestoreCommitted();
        RecoveredLater(u, t, world, r, calm);
      }
    }

    /** The independent timer: decides an in-flight generation once it is due, and reports a roll-back. */
    method RollbackExpired() returns (r: Reply<bool>)
      requires Valid()
      modifies this
      ensures Valid() && old(log) <= log && Abs(world).kept == old(Abs(world).kept)
      ensures old(plan) == [] ==> plan == []
      ensures ExpiredAs(old(world), world, r, old(plan) == [])
      ensures old(plan) == [] && |old(world).rows| > 0 ==>
        var g := old(world).rows[|old(world).rows| - 1];
        && (g.status.Applied? && g.sum.previous.Some? && g.deadline.Some? && g.deadline.value <= old(world).clock ==>
             r == Ok(true) && world.rows == old(world).rows[|old(world).rows| - 1 := g.(status := RolledBack)])
        && (!g.status.Prepared? && g.boot == old(world).boot && (g.deadline.Some? ==> old(world).clock < g.deadline.value) ==>
             r == Ok(false) && world == old(world))
    {
      PendingIsNewest(world);
      hide FailsOnce, Inv, Allowed, Replay, Abs, PendingRecoveredAs, PendingBelow, ExpiredAs;
      ghost var u, calm := world, plan == [];
      var o := Ask();
      ghost var t := world;
      if !o.Done? {
        r := Err(ErrorOf(o));
        ExpiredRefused(u, t, r.why);
      } else if PendingId(world.rows) == 0 {
        r := Ok(false);
        ExpiredNotDue(u, t, calm);
      } else {
        var g := world.rows[PendingId(world.rows) - 1];
        if !g.status.Prepared? && g.boot == world.boot && (g.deadline.None? || world.clock < g.deadline.value) {
          r := Ok(false);
          ExpiredNotDue(u, t, calm);
        } else {
          var q := RecoverPending(PendingId(world.rows));
          r := if q.Ok? then Ok(q.value.RolledBackTo?) else Err(q.why);
          ExpiredFromPending(u, t, world, q, calm);
        }
      }
      if calm {
        TimerMeans(u, world, r);
      }
    }

    /** The immutable script and snapshot files; a file that is already there must be the same. */
    method SaveFiles(id: nat, s: Snapshot) returns (r: Reply<()>)
      requires Valid() && s.generation == id
      modifies this
      ensures Valid() && old(log) <= log && Abs(world) == old(Abs(world))
      ensures world == old(world).(scripts := world.scripts, snapshots := world.snapshots, clock := world.clock)
      ensures old(world).clock <= world.clock
      ensures r.Err? ==> r.why.FileConflict? || r.why.DeviceError? || r.why.ProcessDied?
      ensures r.Ok? ==> firstUse == old(firstUse) && id in world.scripts && id in world.snapshots
      ensures r.Ok? ==> world.scripts[id] == s.script && world.snapshots[id] == s && FilesMatch(old(world), id, s)
      ensures old(plan) == [] ==> plan == [] && world.clock == old(world).clock
      ensures old(plan) == [] ==> r == if FilesMatch(old(world), id, s) then Ok(()) else Err(FileConflict)
    {
      hide FailsOnce, Inv, Allowed, Replay, Abs;
      if id in world.scripts && world.scripts[id] != s.script {
        return Err(FileConflict);
      }
      var o := Done;
      if id !in world.scripts {
        o := Write(WriteScript(id, s.script));
      }
      if !o.Done? {
        return Err(ErrorOf(o));
      }
      if id in world.snapshots && world.snapshots[id] != s {
        return Err(FileConflict);
      }
      if id !in world.snapshots {
        o := Write(WriteSnapshot(s));
      }
      r := if o.Done? then Ok(()) else Err(ErrorOf(o));
    }

    /** Three durable writes: the script file, the snapshot file, the pending row. */
    method Save(a: Artifact, deadline: Option<int>) returns (r: Reply<()>)
      requires Valid() && 0 < a.generation <= |world.rows| + 1 && PendingId(world.rows) == 0
      modifies this
      ensures Valid() && old(log) <= log && Abs(world).kept == old(Abs(world).kept)
      ensures r.Err? ==> !Impossible(r.why) && SaveFailed(old(world), world, a)
      ensures r.Ok? ==> firstUse == old(firstUse) && Saved(old(world), world, a, deadline) && FilesAgree(old(world), a)
      ensures old(plan) == [] ==> plan == [] && r == SaveReply(old(world), a)
      ensures old(plan) == [] && r.Ok? ==> world.clock == old(world).clock
    {
      CommittedPointer(world);
      PendingIsNewest(world);
      var s := SnapshotFor(world, a);
      hide FailsOnce, Inv, Allowed, Replay, Abs, PendingBelow, LatestBelow, Shadow, Saved, SaveFailed, Undisturbed;
      var id := a.generation;
      r := SaveFiles(id, s);
      FilesStopped(old(world), world, a);
      if r.Err? {
        return;
      }
      if id <= |world.rows| {
        var asked := Ask();
        FilesStopped(old(world), world, a);
        return Err(if asked.Done? then IdTaken else ErrorOf(asked));
      }
      if firstUse {
        InsertStaysUnowned(world, id, deadline);
      }
      ghost var filed := world;
      r := Insert(id, deadline);
      if r.Ok? {
        InsertSaves(old(world), filed, world, a, deadline);
      } else {
        InsertStopped(old(world), filed, world, a, deadline);
      }
    }

    method Insert(id: nat, deadline: Option<int>) returns (r: Reply<()>)
      requires Valid() && Enabled(world, InsertRow(id, deadline))
      requires firstUse ==> !OwnsTables(Perform(world, InsertRow(id, deadline)))
      modifies this
      ensures Valid() && old(log) <= log && Abs(world).kept == old(Abs(world).kept)
      ensures r.Err? ==> r.why.DeviceError? || r.why.ProcessDied?
      ensures Later(old(world), world) || Later(Perform(old(world), InsertRow(id, deadline)), world)
      ensures r.Ok? ==> firstUse == old(firstUse) && Later(Perform(old(world), InsertRow(id, deadline)), world)
      ensures old(plan) == [] ==> plan == [] && r == Ok(()) && world.clock == old(world).clock
    {
      hide FailsOnce, Inv, Allowed, Replay, Abs;
      var o := Write(InsertRow(id, deadline));
      r := if o.Done? then Ok(()) else Err(ErrorOf(o));
    }

    /** Puts back what ran before a candidate that this process has just installed. */
    method Restore(id: nat) returns (o: Outcome)
      requires Valid() && Newest(world, id) && InFlight(world.rows[id - 1].status) && !Published(world)
      requires world.kernel.Altered? ==> OwnsTables(world)
      modifies this
      ensures Valid() && old(log) <= log && Abs(world).kept == old(Abs(world).kept)
      ensures world.rows == old(world).rows && world.pointer == old(world).pointer
      ensures o.Done? ==> Restored(world)
      ensures old(plan) == [] ==> plan == [] && o.Done?
    {
      PredecessorIsCommitted(world);
      hide FailsOnce, Inv, Allowed, Replay, Abs, LatestBelow;
      if LastKnownGood(world.rows) == 0 {
        o := DestroyOwned();
      } else {
        o := ReinstallGood();
      }
    }

    /** Reinstalls the latest committed generation, records its hash again, and restores the runtime state. */
    method ReinstallGood() returns (o: Outcome)
      requires Valid() && LastKnownGood(world.rows) != 0
      modifies this
      ensures Valid() && old(log) <= log && Abs(world) == old(Abs(world))
      ensures world == old(world).(kernel := world.kernel, clock := world.clock, observed := world.observed)
      ensures o.Done? ==> world.kernel == Ours(Generation(world.rows[LastKnownGood(world.rows) - 1].checksum))
      ensures old(plan) == [] && !(old(firstUse) && old(world).kernel.Existing() > 0) ==> plan == [] && o.Done?
    {
      hide FailsOnce, Inv, Allowed, Replay, Abs, LatestBelow;
      var p := LastKnownGood(world.rows);
      assert world.rows[p - 1].status.Committed?;
      o := Ask();
      if !o.Done? {
        return;
      }
      var attempted: bool;
      o, attempted := Load(Generation(world.rows[p - 1].checksum));
      if !o.Done? {
        return;
      }
      o := Ask();
      if !o.Done? {
        return;
      }
      o := Write(RecordHash(p));
      if !o.Done? {
        return;
      }
      o := RestoreRuntimeOrDeny();
    }

    /** Marks a candidate rolled back whose restoration is confirmed, and passes the cause on. */
    method ForgetCandidate(id: nat, cause: Refusal) returns (r: Reply<nat>)
      requires Valid() && Newest(world, id) && InFlight(world.rows[id - 1].status) && !Published(world)
      requires world.rows[id - 1].status.Pending? || Restored(world)
      requires !Impossible(cause)
      modifies this
      ensures Valid() && old(log) <= log && Abs(world).kept == old(Abs(world).kept)
      ensures r.Err? && !Impossible(r.why)
      ensures world.kernel == old(world).kernel && SameCandidate(old(world), world)
      ensures old(plan) == [] ==> plan == [] && r == Err(cause) && world.rows[id - 1].status.RolledBack?
    {
      if !OwnsTables(world) {
        UnownedStays(world, id);
      }
      hide FailsOnce, Inv, Allowed, Replay, Abs, SameCandidate, Restored, LatestBelow;
      var o := Write(MarkRolledBack(id));
      ForgottenRow(old(world), world, id);
      r := Err(if o.Dead? then ProcessDied else cause);
    }

    /** A failure after the candidate reached the kernel: it stays in flight until restoration is confirmed. */
    method RecoverPostApply(id: nat, cause: Refusal) returns (r: Reply<nat>)
      requires Valid() && Newest(world, id) && InFlight(world.rows[id - 1].status) && !Published(world)
      requires (world.kernel.Altered? ==> OwnsTables(world)) && !Impossible(cause)
      modifies this
      ensures Valid() && old(log) <= log && Abs(world).kept == old(Abs(world).kept)
      ensures r.Err? && !Impossible(r.why)
      ensures SameCandidate(old(world), world) && (world.rows[id - 1].status.RolledBack? ==> Restored(world))
      ensures old(plan) == [] ==> plan == [] && r == Err(cause) && world.rows[id - 1].status.RolledBack?
    {
      hide FailsOnce, Inv, Allowed, Replay, Abs;
      var o := Restore(id);
      if o.Done? {
        r := ForgetCandidate(id, cause);
      } else {
        r := Err(if o.Dead? then ProcessDied else cause);
      }
    }

    /** The nft run was reported failed: nothing attempted, or something attempted with an unknown result. */
    method RecoverFailedLoad(id: nat, attempted: bool) returns (r: Reply<nat>)
      requires Valid() && Newest(world, id) && world.rows[id - 1].status.Pending?
      requires attempted && LastKnownGood(world.rows) != 0 ==> OwnsTables(world)
      modifies this
      ensures Valid() && old(log) <= log && Abs(world).kept == old(Abs(world).kept)
      ensures r.Err? && !Impossible(r.why)
      ensures SameCandidate(old(world), world) && (!attempted ==> world.kernel == old(world).kernel)
      ensures attempted && world.rows[id - 1].status.RolledBack? ==> Restored(world)
      ensures attempted && LastKnownGood(old(world).rows) == 0 && old(world).kernel.Existing() > 0 ==>
        world.rows == old(world).rows && world.kernel == old(world).kernel
      ensures old(plan) == [] ==> plan == []
      ensures old(plan) == [] && attempted && LastKnownGood(old(world).rows) == 0 && old(world).kernel.Existing() > 0 ==> r == Err(UnverifiedTables)
      ensures old(plan) == [] && !(attempted && LastKnownGood(old(world).rows) == 0 && old(world).kernel.Existing() > 0) ==>
        r == Err(DeviceError) && world.rows[id - 1].status.RolledBack?
    {
      PredecessorIsCommitted(world);
      hide FailsOnce, Inv, Allowed, Replay, Abs, LatestBelow;
      if !attempted {
        r := ForgetCandidate(id, DeviceError);
      } else if LastKnownGood(world.rows) == 0 {
        r := RecoverFirstLoad(id);
      } else {
        r := RecoverUncertainLoad(id);
      }
    }

    /** With nothing to go back to, tables that may be the candidate's are left for an operator. */
    method RecoverFirstLoad(id: nat) returns (r: Reply<nat>)
      requires Valid() && Newest(world, id) && world.rows[id - 1].status.Pending?
      requires LastKnownGood(world.rows) == 0
      modifies this
      ensures Valid() && old(log) <= log && Abs(world).kept == old(Abs(world).kept)
      ensures r.Err? && !Impossible(r.why) && world.kernel == old(world).kernel
      ensures SameCandidate(old(world), world) && (world.rows[id - 1].status.RolledBack? ==> Restored(world))
      ensures old(world).kernel.Existing() > 0 ==> world.rows == old(world).rows
      ensures old(plan) == [] ==> plan == []
      ensures old(plan) == [] && old(world).kernel.Existing() > 0 ==> r == Err(UnverifiedTables)
      ensures old(plan) == [] && old(world).kernel.Existing() == 0 ==> r == Err(DeviceError) && world.rows[id - 1].status.RolledBack?
    {
      PredecessorIsCommitted(world);
      hide FailsOnce, Inv, Allowed, Replay, Abs, LatestBelow, OwnsTables, Undisturbed;
      var o := Ask();
      if !o.Done? {
        r := Err(ErrorOf(o));
      } else if world.kernel.Existing() > 0 {
        r := Err(UnverifiedTables);
      } else {
        r := ForgetCandidate(id, DeviceError);
      }
    }

    method RecoverUncertainLoad(id: nat) returns (r: Reply<nat>)
      requires Valid() && Newest(world, id) && world.rows[id - 1].status.Pending?
      requires LastKnownGood(world.rows) != 0
      modifies this
      ensures Valid() && old(log) <= log && Abs(world).kept == old(Abs(world).kept)
      ensures r.Err? && !Impossible(r.why)
      ensures SameCandidate(old(world), world) && (world.rows[id - 1].status.RolledBack? ==> Restored(world))
      ensures old(plan) == [] ==> plan == [] && r == Err(DeviceError) && world.rows[id - 1].status.RolledBack?
    {
      PredecessorIsCommitted(world);
      hide FailsOnce, Inv, Allowed, Replay, Abs;
      r := RecoverPostApply(id, DeviceError);
    }

    /** Records the hash of what the kernel shows for a generation that runs there. */
    method RecordFingerprint(id: nat) returns (o: Outcome)
      requires Valid() && Enabled(world, RecordHash(id))
      modifies this
      ensures Valid() && old(log) <= log && Abs(world) == old(Abs(world))
      ensures world == old(world).(observed := world.observed, clock := world.clock) && old(world).clock <= world.clock
      ensures world.observed == old(world).observed || world.observed == old(world).observed[id := PrintOf(old(world).kernel.loaded)]
      ensures o.Done? ==> id in world.observed
      ensures old(plan) == [] ==> plan == [] && o.Done? && world.clock == old(world).clock
      ensures FailsOnce(old(plan)) ==> !o.Dead? && if o.Done? then FailsOnce(plan) else plan == []
    {
      hide FailsOnce, Inv, Allowed, Replay, Abs;
      o := Ask();
      if o.Done? {
        o := Write(RecordHash(id));
      }
    }

    /** Marks the installed candidate applied and records its hash. */
    method RecordApplied(id: nat) returns (r: Reply<nat>)
      requires Valid() && Newest(world, id) && world.rows[id - 1].status.Pending? && !firstUse
      requires world.kernel == Ours(Generation(world.rows[id - 1].checksum))
      modifies this
      ensures Valid() && old(log) <= log && Abs(world).kept == old(Abs(world).kept)
      ensures r.Err? ==> !Impossible(r.why) && SameCandidate(old(world), world)
      ensures r.Err? && world.rows[id - 1].status.RolledBack? ==> Restored(world)
      ensures r.Ok? ==> r.value == id && InForce(old(world), world, id, true)
      ensures old(plan) == [] ==> plan == [] && r.Ok? && world.clock == old(world).clock
      ensures FailsOnce(old(plan)) ==> if r.Ok? then FailsOnce(plan) else world.rows[id - 1].status.RolledBack?
    {
      hide FailsOnce, Inv, Allowed, Replay, Abs, InForce, Restored, SameCandidate, LatestBelow, OwnsTables, Undisturbed;
      ghost var u := world;
      var o := Write(MarkApplied(id));
      ghost var t := world;
      MarkedApplied(u, t, id);
      if o.Done? {
        o := RecordFingerprint(id);
      }
      MarkedStays(u, t, world, id);
      hide Perform, Published, Enabled, Shadow;
      if o.Done? {
        r := Ok(id);
        InForceRecorded(u, t, world, id);
      } else if o.Dead? {
        r := Err(ProcessDied);
      } else {
        ghost var c := world;
        r := RecoverPostApply(id, DeviceError);
        FailedAfterMark(u, c, world, id);
      }
    }

    /** The health check, then for an unsafe apply the commit. */
    method ConfirmApplied(id: nat, safe: bool) returns (r: Reply<nat>)
      requires Valid() && Newest(world, id) && world.rows[id - 1].status.Applied? && id in world.observed
      requires world.kernel == Ours(Generation(world.rows[id - 1].checksum))
      requires !safe ==> world.rows[id - 1].deadline.None?
      modifies this
      ensures Valid() && old(log) <= log && old(Abs(world)).kept <= Abs(world).kept
      ensures r.Err? ==> !Impossible(r.why) && SameCandidate(old(world), world)
      ensures r.Err? && world.rows[id - 1].status.RolledBack? ==> Restored(world)
      ensures r.Ok? ==> r.value == id && InForce(old(world), world, id, safe)
      ensures old(plan) == [] ==> plan == [] && r.Ok? && world.clock == old(world).clock
      ensures FailsOnce(old(plan)) && safe && r.Err? ==> world.rows[id - 1].status.RolledBack?
    {
      hide FailsOnce, Inv, Allowed, Replay, Abs, RolledBackAs, InForce, Undisturbed;
      ghost var u := world;
      var o := Ask();
      ghost var t, still := world, plan == [];
      if o.Dead? {
        return Err(ProcessDied);
      }
      if o.Failed? {
        var q := RollbackLocked(id);
        RollbackRefusal(t, world, id, q, still);
        FailedByRollback(u, t, world, id, q, still);
        return Err(if q.Ok? then DeviceError else q.why);
      }
      r := FinishApplied(id, safe);
      if r.Ok? {
        AppliedEarlier(u, t, world, id, safe);
      }
    }

    /** Commits unless the apply is safe, then audits. */
    method FinishApplied(id: nat, safe: bool) returns (r: Reply<nat>)
      requires Valid() && Newest(world, id) && world.rows[id - 1].status.Applied? && id in world.observed
      requires world.kernel == Ours(Generation(world.rows[id - 1].checksum))
      requires !safe ==> world.rows[id - 1].deadline.None?
      modifies this
      ensures Valid() && old(log) <= log && old(Abs(world)).kept <= Abs(world).kept
      ensures r.Err? ==> !Impossible(r.why) && SameCandidate(old(world), world)
      ensures r.Err? && world.rows[id - 1].status.RolledBack? ==> Restored(world)
      ensures r.Ok? ==> r.value == id && InForce(old(world), world, id, safe)
      ensures old(plan) == [] ==> plan == [] && r.Ok? && world.clock == old(world).clock
      ensures FailsOnce(old(plan)) && safe ==> r.Ok?
    {
      PendingIsNewest(world);
      hide FailsOnce, Inv, Allowed, Replay, Abs, CommitLockedAs, Undisturbed;
      ghost var u, calm := world, plan == [];
      if !safe {
        var q := CommitLocked(id);
        CommitOutcome(u, u, world, id, q, calm);
        if q.Err? {
          FailedByCommit(u, world, id, q, calm);
          return Err(q.why);
        }
      }
      ghost var c := world;
      var o := Ask();
      r := if o.Dead? then Err(ProcessDied) else Ok(id);
      if r.Ok? {
        AppliedLater(u, c, world, id, safe);
      }
    }

    /** Installs the saved candidate and sees it through. */
    method Launch(id: nat, safe: bool) returns (r: Reply<nat>)
      requires Valid() && Newest(world, id) && world.rows[id - 1].status.Pending?
      requires LastKnownGood(world.rows) == 0 ==> firstUse && world.kernel.Existing() == 0
      requires !safe ==> world.rows[id - 1].deadline.None?
      modifies this
      ensures Valid() && old(log) <= log && old(Abs(world)).kept <= Abs(world).kept
      ensures r.Err? ==> !Impossible(r.why) && SameCandidate(old(world), world) && Forgotten(old(world).kernel, world)
      ensures r.Ok? ==> r.value == id && InForce(old(world), world, id, safe)
      ensures old(plan) == [] ==> plan == [] && r.Ok? && world.clock == old(world).clock
      ensures FailsOnce(old(plan)) && safe && r.Err? ==>
        world.rows[id - 1].status.RolledBack? || (r.why.UnverifiedTables? && LastKnownGood(old(world).rows) == 0)
    {
      hide FailsOnce, Inv, Allowed, Replay, Abs, InForce, LatestBelow;
      ghost var u := world;
      var attempted := false;
      var o := Ask();
      if o.Done? {
        o, attempted := Load(Generation(world.rows[id - 1].checksum));
      }
      if o.Dead? {
        return Err(ProcessDied);
      }
      if !o.Done? {
        r := RecoverFailedLoad(id, attempted);
        return;
      }
      ghost var t := world;
      r := RecordAndConfirm(id, safe);
      LaunchedOrNot(u, t, world, id, r, safe);
    }

    /** What follows once the candidate runs in the kernel. */
    method RecordAndConfirm(id: nat, safe: bool) returns (r: Reply<nat>)
      requires Valid() && Newest(world, id) && world.rows[id - 1].status.Pending? && !firstUse
      requires world.kernel == Ours(Generation(world.rows[id - 1].checksum))
      requires !safe ==> world.rows[id - 1].deadline.None?
      modifies this
      ensures Valid() && old(log) <= log && old(Abs(world)).kept <= Abs(world).kept
      ensures r.Err? ==> !Impossible(r.why) && SameCandidate(old(world), world)
      ensures r.Err? && world.rows[id - 1].status.RolledBack? ==> Restored(world)
      ensures r.Ok? ==> r.value == id && InForce(old(world), world, id, safe)
      ensures old(plan) == [] ==> plan == [] && r.Ok? && world.clock == old(world).clock
      ensures FailsOnce(old(plan)) && safe && r.Err? ==> world.rows[id - 1].status.RolledBack?
    {
      hide FailsOnce, Inv, Allowed, Replay, Abs, InForce, LatestBelow, OwnsTables, Undisturbed, Restored;
      ghost var t := world;
      r := RecordApplied(id);
      if r.Ok? {
        ghost var c := world;
        AppliedDetails(t, c, id);
        r := ConfirmApplied(id, safe);
        if r.Ok? {
          AppliedChain(t, t, c, world, id, safe);
        } else {
          FailedAfterApplied(t, t, c, world, id);
        }
      }
    }

    /**
     Saves, installs and records a candidate, and commits it unless the apply is safe. The artifact's
     id was handed out as the highest id plus one, now or earlier.
     */
    method Apply(a: Artifact, safe: bool, ttl: nat) returns (r: Reply<nat>)
      requires Valid() && 0 < a.generation <= |world.rows| + 1
      modifies this
      ensures Valid() && old(log) <= log && old(Abs(world)).kept <= Abs(world).kept
      ensures r.Err? ==> !Impossible(r.why) && ApplyFailed(old(world), world, a)
      ensures r.Ok? ==> AppliedAs(old(world), world, a, safe, ttl) && FilesAgree(old(world), a)
      ensures old(plan) == [] ==> plan == []
      ensures old(plan) == [] ==> (r.Ok? <==> ApplyReply(old(world), a).Ok?)
      ensures old(plan) == [] && r.Err? ==> r == ApplyReply(old(world), a)
    {
      hide FailsOnce, Inv, Allowed, Replay, Abs, AppliedAs, Launched, FilesAgree, PendingBelow, LatestBelow, SaveReply, ApplyFailed;
      ghost var u := world;
      var q := ApplyGuards();
      if q.Err? {
        NothingApplied(u, world, a);
        return Err(q.why);
      }
      ghost var t := world;
      r := ApplyGuarded(a, if safe then Some(world.clock + ttl) else None);
      AppliedLaterAs(u, t, world, a, safe, ttl);
      if r.Err? {
        FailedLater(u, t, world, a);
      }
    }

    /** Nothing may be in flight, and a first apply may not find product-named tables. */
    method ApplyGuards() returns (r: Reply<()>)
      requires Valid()
      modifies this
      ensures Valid() && old(log) <= log && Abs(world) == old(Abs(world)) && Later(old(world), world)
      ensures r.Err? ==> !Impossible(r.why)
      ensures r.Ok? ==> PendingId(world.rows) == 0
      ensures r.Ok? && LastKnownGood(world.rows) == 0 ==> firstUse && world.kernel.Existing() == 0
      ensures old(plan) == [] ==> plan == [] && world == old(world) && r == GuardReply(old(world))
    {
      hide FailsOnce, Inv, Allowed, Replay, Abs, PendingBelow, LatestBelow, OwnsTables, Undisturbed;
      // The pending check is made before and again after taking the lock, with the safe-apply guards.
      var o := Ask();
      if !o.Done? {
        return Err(ErrorOf(o));
      }
      if PendingId(world.rows) != 0 {
        return Err(StillPending);
      }
      o := Ask();
      if !o.Done? {
        return Err(ErrorOf(o));
      }
      r := ProtectFirstUse();
      if r.Ok? {
        o := Ask();
        r := if o.Done? then Ok(()) else Err(ErrorOf(o));
      }
    }

    /** Before the first success any product-named table is somebody else's. */
    method ProtectFirstUse() returns (r: Reply<()>)
      requires Valid() && PendingId(world.rows) == 0
      modifies this`firstUse
      ensures Valid()
      ensures r == if LastKnownGood(world.rows) == 0 && world.kernel.Existing() > 0 then Err(ForeignTables) else Ok(())
      ensures r.Ok? && LastKnownGood(world.rows) == 0 ==> firstUse
    {
      if LastKnownGood(world.rows) == 0 {
        if world.kernel.Existing() > 0 {
          return Err(ForeignTables);
        }
        NothingOwned(world);
        hide *;
        firstUse := true;
      }
      r := Ok(());
    }

    /** The part of an apply that follows the guards. */
    method ApplyGuarded(a: Artifact, deadline: Option<int>) returns (r: Reply<nat>)
      requires Valid() && 0 < a.generation <= |world.rows| + 1 && PendingId(world.rows) == 0
      requires LastKnownGood(world.rows) == 0 ==> firstUse && world.kernel.Existing() == 0
      modifies this
      ensures Valid() && old(log) <= log && old(Abs(world)).kept <= Abs(world).kept
      ensures r.Err? ==> !Impossible(r.why) && ApplyFailed(old(world), world, a)
      ensures r.Ok? ==> r.value == a.generation && Launched(old(world), world, a, deadline) && FilesAgree(old(world), a)
      ensures old(plan) == [] ==> plan == []
      ensures old(plan) == [] ==> (r.Ok? <==> SaveReply(old(world), a).Ok?)
      ensures old(plan) == [] && r.Err? ==> r.why == SaveReply(old(world), a).why
    {
      PendingIsNewest(world);
      hide FailsOnce, Inv, Allowed, Replay, Abs, Saved, InForce, Launched, FilesAgree, PendingBelow, SaveReply, LatestBelow,
        ApplyFailed, SaveFailed, Forgotten, SameCandidate;
      ghost var u := world;
      var q := Save(a, deadline);
      if q.Err? {
        SaveStopped(u, world, a);
        return Err(q.why);
      }
      ghost var t := world;
      SavedDetails(u, t, a, deadline);
      r := Launch(a.generation, deadline.Some?);
      if r.Ok? {
        LaunchedFinished(u, t, world, a, deadline);
      } else {
        LaunchFailed(u, t, world, a, deadline);
      }
    }

    /** A candidate that never finished, or lost its integrity: report it, or roll it back. */
    method RollbackDrift(id: nat, repair: bool) returns (r: Reply<Drift>)
      requires Valid() && Newest(world, id) && UnfinishedCandidate(world) && DriftIn(world)
      modifies this
      ensures Valid() && old(log) <= log && Abs(world).kept == old(Abs(world).kept)
      ensures old(plan) == [] ==> plan == []
      ensures ReconciledAs(old(world), world, repair, r, old(plan) == [])
    {
      PendingIsNewest(world);
      hide FailsOnce, Inv, Allowed, Replay, Abs, RolledBackAs, DriftIn, ReconciledAs;
      ghost var u, calm := world, plan == [];
      if !repair {
        r := Ok(Drift(true, false));
        ReconciledReport(u, repair, r);
        return;
      }
      var q := RollbackLocked(id);
      r := if q.Ok? then Ok(Drift(true, true)) else Err(q.why);
      ReconciledByRollback(u, world, id, q, calm);
    }

    /** Reinstalls a recorded generation and records its hash again, which changes no hash. */
    method Reinstall(id: nat) returns (o: Outcome)
      requires Valid() && 1 <= id <= |world.rows| && OwnsTables(world)
      requires world.rows[id - 1].status.Prepared? || world.rows[id - 1].status.Committed?
      requires MayLoad(world, Generation(world.rows[id - 1].checksum))
      requires id in world.observed && world.observed[id] == PrintOf(Generation(world.rows[id - 1].checksum))
      modifies this
      ensures Valid() && old(log) <= log && Abs(world) == old(Abs(world)) && KernelOnly(old(world), world)
      ensures o.Done? ==> world.kernel == Ours(Generation(old(world).rows[id - 1].checksum))
      ensures old(plan) == [] ==> plan == [] && o.Done? && world.clock == old(world).clock
    {
      hide FailsOnce, Inv, Allowed, Replay, Abs, LatestBelow;
      ghost var u := world;
      var attempted: bool;
      o := Ask();
      if o.Done? {
        o, attempted := Load(Generation(world.rows[id - 1].checksum));
      }
      if o.Done? {
        ghost var t := world;
        o := RecordFingerprint(id);
        SameHash(u, t, world, id);
      }
    }

    method RepairDrift(id: nat) returns (r: Reply<Drift>)
      requires Valid() && id == Expected(world) && !UnfinishedCandidate(world) && DriftIn(world)
      modifies this
      ensures Valid() && old(log) <= log && Abs(world).kept == old(Abs(world).kept)
      ensures old(plan) == [] ==> plan == []
      ensures ReconciledAs(old(world), world, true, r, old(plan) == [])
    {
      ghost var u, calm := world, plan == [];
      if id == 0 {
        ReconciledNothing(u);
        return Err(NothingCommitted);
      }
      ExpectedIsSound(world);
      hide FailsOnce, Inv, Allowed, Replay, Abs, DriftIn, ReconciledAs, LatestBelow, PendingBelow, Expected, MayLoad;
      var o := Reinstall(id);
      if o.Done? {
        o := RestoreRuntimeOrDeny();
      }
      r := if o.Done? then Ok(Drift(true, true)) else Err(ErrorOf(o));
      ReconciledByReinstall(u, world, id, r, calm);
    }

    /** Compares the kernel with the generation it should run, and repairs it on request. */
    method Reconcile(repair: bool) returns (r: Reply<Drift>)
      requires Valid()
      modifies this
      ensures Valid() && old(log) <= log && Abs(world).kept == old(Abs(world).kept)
      ensures old(plan) == [] ==> plan == []
      ensures ReconciledAs(old(world), world, repair, r, old(plan) == [])
    {
      PendingIsNewest(world);
      hide FailsOnce, Inv, Allowed, Replay, Abs, PendingBelow, LatestBelow, Expected, ReconciledAs, Undisturbed, Decides;
      ghost var u, calm := world, plan == [];
      var o := Ask();
      if !o.Done? {
        r := Err(ErrorOf(o));
        ReconciledRefused(u, world, repair, r.why);
        return;
      }
      ghost var t, still := world, plan == [];
      var pending := PendingId(world.rows);
      if pending != 0 && world.rows[pending - 1].status.Pending? {
        r := RollbackDrift(pending, repair);
      } else {
        r := CompareAndRepair(repair);
      }
      ReconciledLater(u, t, world, repair, r, calm, still);
    }

    method CompareAndRepair(repair: bool) returns (r: Reply<Drift>)
      requires Valid() && (PendingId(world.rows) != 0 ==> !world.rows[PendingId(world.rows) - 1].status.Pending?)
      modifies this
      ensures Valid() && old(log) <= log && Abs(world).kept == old(Abs(world).kept)
      ensures old(plan) == [] ==> plan == []
      ensures ReconciledAs(old(world), world, repair, r, old(plan) == [])
    {
      PendingIsNewest(world);
      hide FailsOnce, Inv, Allowed, Replay, Abs, PendingBelow, LatestBelow, Expected, ReconciledAs, Undisturbed, Decides;
      ghost var u, calm := world, plan == [];
      var o := Ask();
      if !o.Done? {
        r := Err(ErrorOf(o));
        ReconciledRefused(u, world, repair, r.why);
        return;
      }
      ghost var t, still := world, plan == [];
      var pending, expected := PendingId(world.rows), LastKnownGood(world.rows);
      if pending != 0 && world.rows[pending - 1].status.Applied? {
        expected := pending;
      } else if pending != 0 && world.pointer == Some(PointerTo(world.rows[pending - 1].sum)) {
        // Prepared, and its own snapshot is published already.
        expected := pending;
      }
      assert expected == Expected(world);
      var missing := !world.kernel.Intact()
        || (expected != 0 && (expected !in world.observed || world.kernel.Fingerprint() != Some(world.observed[expected])));
      if !missing || !repair {
        r := Ok(Drift(missing, false));
        ReconciledReport(t, repair, r);
      } else if pending != 0 && world.rows[pending - 1].status.Applied? {
        r := RollbackDrift(pending, true);
      } else {
        r := RepairDrift(expected);
      }
      ReconciledLater(u, t, world, repair, r, calm, still);
    }
  }
}
