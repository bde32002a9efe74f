/**
 The managed setup as a durable transaction: a phase journal on disk, an executor whose steps may fail
 or be the last thing the process does, a watchdog that takes over under the lock, an operator's
 roll-back and the boot handoff. The journal and the generation are separate stores; a crash can fall
 between any write of one and any write of the other.
 */
module SetupTransaction {
  import opened Wrappers

  datatype Phase =
    | Inspect | Backup | BootPrep | Guard | Install | Docker | Runtime
    | Apply | Tunnel | Validate | Commit | Handoff | Boot | Finalize | Complete | Rollback | Failed

  datatype Status =
    | Running | ResumeReady | RebootRequired
    | RollingBack | RollbackFailed | RollbackReboot | RolledBack
    | RecoveringCommitted | CommittedRecoveryFailed | CommitStateUnknown
    | Completed

  datatype Journal = Journal(
    transaction: nat, phase: Phase, status: Status,
    started: int, updated: int, deadline: int,
    backup: string, generation: nat, committed: bool, error: string)

  const STEPS: seq<Phase> :=
    [Guard, Install, Docker, Runtime, Apply, Tunnel, Validate, Commit, Handoff, Boot, Finalize]

  // ---- What the watchdog accepts ----

  predicate NeedsRecovery(s: Status) {
    || s.Running? || s.ResumeReady? || s.RollingBack? || s.RecoveringCommitted? || s.RollbackFailed?
    || s.CommitStateUnknown? || s.CommittedRecoveryFailed?
  }

  predicate RunningPhase(p: Phase) {
    !p.Complete? && !p.Rollback? && !p.Failed?
  }

  predicate RollbackOrigin(p: Phase) {
    !p.Handoff? && !p.Boot? && !p.Finalize? && !p.Complete?
  }

  predicate CommittedOrigin(p: Phase) {
    p.Commit? || p.Handoff? || p.Boot? || p.Finalize?
  }

  predicate InspectionPhase(p: Phase) {
    p.Apply? || p.Tunnel? || p.Validate? || p.Commit?
  }

  predicate StatusFits(j: Journal) {
    match j.status
    case Running => RunningPhase(j.phase)
    case Completed => j.phase.Complete? && j.committed
    case RolledBack => j.phase.Failed? && !j.committed
    case RebootRequired => j.phase.BootPrep? && !j.committed && j.generation == 0 && j.backup != "" && j.error == ""
    case ResumeReady => j.phase.BootPrep? && !j.committed && j.generation == 0 && j.backup != "" && j.error == ""
    case RollbackReboot => j.phase.Failed? && j.backup != "" && j.error == ""
    case RollingBack => RollbackOrigin(j.phase) && !j.committed
    case RollbackFailed => RollbackOrigin(j.phase) && !j.committed
    case RecoveringCommitted => CommittedOrigin(j.phase) && j.committed && j.generation != 0
    case CommittedRecoveryFailed => CommittedOrigin(j.phase) && j.committed && j.generation != 0
    case CommitStateUnknown => InspectionPhase(j.phase) && !j.committed && j.generation != 0
  }

  /** The watchdog's own check of a journal it finds on disk. */
  predicate Accepted(j: Journal) {
    && j.started <= j.deadline
    && (j.committed ==> j.generation != 0)
    && StatusFits(j)
    && (NeedsRecovery(j.status) && !j.phase.Inspect? && !j.phase.Backup? ==> j.backup != "")
  }

  /** The same check as the watchdog makes it, status by status. */
  method CheckJournal(j: Journal) returns (ok: bool)
    ensures ok <==> Accepted(j)
  {
    if j.deadline < j.started || (j.committed && j.generation == 0) {
      return false;
    }
    var p := j.phase;
    match j.status {
      case Running => ok := !p.Complete? && !p.Rollback? && !p.Failed?;
      case Completed => ok := p.Complete? && j.committed;
      case RolledBack => ok := p.Failed? && !j.committed;
      case RebootRequired | ResumeReady =>
        ok := p.BootPrep? && !j.committed && j.generation == 0 && j.backup != "" && j.error == "";
      case RollbackReboot => ok := p.Failed? && j.backup != "" && j.error == "";
      case RollingBack | RollbackFailed =>
        ok := !p.Handoff? && !p.Boot? && !p.Finalize? && !p.Complete? && !j.committed;
      case RecoveringCommitted | CommittedRecoveryFailed =>
        ok := (p.Commit? || p.Handoff? || p.Boot? || p.Finalize?) && j.committed && j.generation != 0;
      case CommitStateUnknown =>
        ok := (p.Apply? || p.Tunnel? || p.Validate? || p.Commit?) && !j.committed && j.generation != 0;
    }
    if NeedsRecovery(j.status) && !p.Inspect? && !p.Backup? && j.backup == "" {
      ok := false;
    }
  }

  // ---- What really holds of a journal on disk ----

  /** The generation this transaction applied, whether it is committed, and whether that was ever misread. */
  datatype Facts = Facts(generation: nat, committed: bool, misread: bool, clock: int)

  predicate BeforeApply(p: Phase) {
    p.Inspect? || p.Backup? || p.BootPrep? || p.Guard? || p.Install? || p.Docker? || p.Runtime?
  }

  predicate AfterApply(p: Phase) {
    p.Tunnel? || p.Validate? || p.Commit? || p.Handoff? || p.Boot? || p.Finalize? || p.Complete?
  }

  predicate AfterCommit(p: Phase) {
    p.Handoff? || p.Boot? || p.Finalize? || p.Complete?
  }

  predicate Rolling(s: Status) {
    s.RollingBack? || s.RollbackFailed?
  }

  /**
   A journal that setup, the watchdog or an operator may have left: accepted, in step with the
   generation, and rolling back a committed one only if an inspection misread it.
   */
  predicate Sound(j: Journal, f: Facts) {
    && Accepted(j)
    && j.started <= f.clock
    && !j.phase.Rollback?
    && (!j.phase.Inspect? && !j.phase.Backup? && !j.status.RolledBack? ==> j.backup != "")
    && (j.generation != 0 && !j.status.RolledBack? ==> j.generation == f.generation)
    && (BeforeApply(j.phase) ==> j.generation == 0 && f.generation == 0 && !f.committed)
    && (AfterApply(j.phase) ==> j.generation != 0)
    && (AfterCommit(j.phase) ==> j.committed)
    && (j.committed ==> f.committed && (CommittedOrigin(j.phase) || j.phase.Complete? || j.phase.Failed?))
    && (f.committed ==> CommittedOrigin(j.phase) || j.phase.Complete? || j.phase.Failed?)
    && (j.phase.Failed? ==> j.status.RolledBack? || j.status.RollbackReboot?)
    && (Rolling(j.status) && f.committed ==> f.misread)
  }

  /** Nothing more has happened than time passing, or a misreading. */
  predicate LaterFacts(f: Facts, g: Facts) {
    g.generation == f.generation && g.committed == f.committed && (f.misread ==> g.misread) && f.clock <= g.clock
  }

  lemma SoundLater(j: Journal, f: Facts, g: Facts)
    requires Sound(j, f) && LaterFacts(f, g)
    ensures Sound(j, g)
  {
  }

  /** A journal whose boot policy is handed back is sound as asking for the reboot, and as rolled back. */
  lemma HandedBack(j: Journal, f: Facts, now: int)
    requires Sound(j, f) && (j.status.Completed? || j.status.RebootRequired? || j.status.ResumeReady? || j.status.RollbackReboot?)
    ensures var k := j.(phase := Failed, error := "", updated := now);
      Sound(k.(status := RollbackReboot), f) && Sound(k.(status := RolledBack, committed := false, generation := 0), f)
  {
  }

  predicate Terminal(j: Journal) {
    j.status.RolledBack? && j.phase.Failed? && !j.committed
  }

  predicate BeforeMutation(j: Journal) {
    !j.committed && j.generation == 0 && j.backup == "" && (j.phase.Inspect? || j.phase.Backup?)
  }

  /** Archived journals are terminal, one for each transaction, and never a different version of the current one. */
  predicate Lineage(history: set<Journal>, disk: Option<Journal>) {
    && (forall h :: h in history ==> Terminal(h))
    && (forall h, g :: h in history && g in history && h.transaction == g.transaction ==> h == g)
    && (disk.Some? ==> forall h :: h in history && h.transaction == disk.value.transaction ==> h == disk.value)
  }

  // ---- The environment ----

  datatype Fault = Fine | Refused | Lost | DiesBefore | DiesAfter

  /** What happens at one device call; the status snapshot may show the policy enforced or not. */
  datatype Event = Event(fault: Fault, elapse: nat, enforced: bool, number: nat)

  datatype Outcome = Done | NotDone | Dead

  /** At most one event is left, and it kills nothing. */
  predicate Single(plan: seq<Event>) {
    |plan| <= 1 && (plan != [] ==> !plan[0].fault.DiesBefore? && !plan[0].fault.DiesAfter?)
  }

  datatype Ending =
    | Protected | AskReboot | Stopped | Died | InvalidJournal | JournalChanged
    | RolledBackNow | RollbackIncomplete | RecoveredNow | RecoveryIncomplete | StateUnknown | Nothing

  /** The transaction was brought to an end: rolled back, completed, or waiting only for a reboot. */
  predicate Over(r: Ending) {
    r.RolledBackNow? || r.RecoveredNow? || r.AskReboot?
  }

  predicate FromRecovery(r: Ending) {
    || r.RolledBackNow? || r.RollbackIncomplete? || r.RecoveredNow? || r.RecoveryIncomplete?
    || r.StateUnknown? || r.AskReboot? || r.Stopped? || r.Died?
  }

  /**
   Whether a recovery of this journal, with no faults, rolls back a generation that is committed: it
   does exactly when the journal does not say so and either it is rolling back already or the
   inspection, which also asks whether the policy is enforced right now, answers no.
   */
  predicate RollsBackCommitted(j: Journal, committed: bool, enforced: bool) {
    committed && !j.committed && (Rolling(j.status) || j.generation == 0 || !enforced)
  }

  /**
   What a recovery of this journal, begun at this time with no faults, answers and leaves on disk: complete
   if the journal says committed, or an inspection, which it only makes where it is not rolling back
   already, finds the recorded generation committed and enforced; otherwise rolled back, or waiting for
   the reboot that undoing prepared boot state needs. Before anything was touched there is nothing to undo.
   */
  predicate RecoveredAs(j: Journal, early: bool, committed: bool, enforced: bool, bootPrepared: bool, now: int, disk: Option<Journal>, r: Ending) {
    var rolling := j.status.RollingBack? || j.status.RollbackFailed?;
    var k := j.(updated := now, error := if early then "CAUSE" else j.error);
    if early && !j.committed && j.generation == 0 && j.backup == "" && (j.phase.Inspect? || j.phase.Backup?) then
      r.RolledBackNow? && disk == Some(k.(phase := Failed, status := RolledBack))
    else if j.committed || (!rolling && j.generation != 0 && committed && enforced) then
      r.RecoveredNow? && disk == Some(k.(phase := Complete, status := Completed, committed := true, error := ""))
    else if bootPrepared then r.AskReboot? && disk == Some(k.(phase := Failed, status := RollbackReboot, error := ""))
    else r.RolledBackNow? && disk == Some(k.(phase := Failed, status := RolledBack))
  }

  /** Not over, and not waiting for a reboot. */
  predicate Unfinished(j: Journal) {
    !j.status.RebootRequired? && !j.status.RollbackReboot? && !j.status.RolledBack? && !j.status.Completed?
  }

  /** What makes the timer take the lock: an acceptable journal, unfinished and past its deadline. */
  predicate Expired(seen: Journal, clock: int) {
    Accepted(seen) && NeedsRecovery(seen.status) && seen.deadline <= clock
  }

  /** Under the lock the journal is still that transaction's, and past its deadline. */
  predicate MayTakeOver(seen: Journal, disk: Option<Journal>, clock: int) {
    disk.Some? && disk.value.transaction == seen.transaction && disk.value.started == seen.started && disk.value.deadline <= clock
  }

  /**
   Whether the operator, or the timer that saw an unfinished journal past its deadline, acts on the journal
   on disk: it is unfinished or waits for a reboot, and for the timer it is still that transaction's and past
   its deadline.
   */
  predicate TakenOver(expiredOnly: bool, seen: Journal, disk: Option<Journal>, clock: int) {
    && disk.Some? && (Unfinished(disk.value) || disk.value.status.RebootRequired?)
    && (expiredOnly ==>
      && Accepted(seen) && Unfinished(seen) && seen.deadline <= clock
      && disk.value.transaction == seen.transaction && disk.value.started == seen.started && disk.value.deadline <= clock)
  }

  predicate StillExpired(seen: Journal, disk: Option<Journal>, clock: int) {
    MayTakeOver(seen, disk, clock) && NeedsRecovery(disk.value.status)
  }

  /** The inspection's answer is about enforcement as well as about the commit. */
  lemma InspectionCanMisread()
    ensures var j := Journal(1, Commit, Running, 0, 0, 900, "/backup", 7, false, "");
      var f := Facts(7, true, false, 10);
      Sound(j, f) && RollsBackCommitted(j, true, false) && !RollsBackCommitted(j, true, true)
  {
  }

  /** Without a misreading, no sound journal leads a recovery to roll back a committed generation that is enforced. */
  lemma CommittedIsSafeWhenEnforced(j: Journal, f: Facts)
    requires Sound(j, f) && NeedsRecovery(j.status) && f.committed && !f.misread
    ensures RollsBackCommitted(j, f.committed, true) <==> false
    ensures RollsBackCommitted(j, f.committed, false) <==> !j.committed
  {
    assert j.phase.Commit? || AfterCommit(j.phase);
  }

  class Setup {
    var disk: Option<Journal>
    var history: set<Journal>
    var generation: nat
    var committed: bool
    var enforced: bool
    var bootPrepared: bool
    var clock: int
    var plan: seq<Event>
    ghost var misread: bool
    ghost var wronged: bool
    ghost var replaced: set<Journal>

    ghost function Truth(): Facts
      reads this
    {
      Facts(generation, committed, misread, clock)
    }

    ghost predicate Valid()
      reads this
    {
      && (disk.Some? ==> Sound(disk.value, Truth()))
      && (committed ==> generation != 0)
      && (wronged ==> misread)
      && (bootPrepared ==> disk.Some? && disk.value.backup != "")
      && replaced <= history
      && Lineage(history, disk)
    }

    /** No archived journal has this transaction. */
    predicate Unarchived(transaction: nat)
      reads this
    {
      forall h :: h in history ==> h.transaction != transaction
    }

    constructor (events: seq<Event>, time: int)
      ensures Valid() && disk.None? && history == {} && !wronged && !misread && plan == events && replaced == {}
    {
      disk, history, generation, committed, enforced, bootPrepared := None, {}, 0, false, false, false;
      clock, plan, misread, wronged, replaced := time, events, false, false, {};
    }

    method Next() returns (e: Event)
      requires Valid()
      modifies this
      ensures Valid() && LaterFacts(old(Truth()), Truth())
      ensures disk == old(disk) && history == old(history) && replaced == old(replaced) && wronged == old(wronged) && misread == old(misread)
      ensures bootPrepared == old(bootPrepared)
      ensures old(plan) == [] ==> plan == [] && e.fault.Fine? && e.number != 0 && enforced == old(enforced) && clock == old(clock)
      ensures Single(old(plan)) ==> plan == [] && !e.fault.DiesBefore? && !e.fault.DiesAfter?
    {
      if plan == [] {
        return Event(Fine, 0, enforced, 1);
      }
      e := plan[0];
      plan, clock, enforced := plan[1..], clock + e.elapse, e.enforced;
      if disk.Some? {
        SoundLater(disk.value, old(Truth()), Truth());
      }
    }

    /** A device call without durable effect here. */
    method Ask() returns (o: Outcome)
      requires Valid()
      modifies this
      ensures Valid() && LaterFacts(old(Truth()), Truth())
      ensures disk == old(disk) && history == old(history) && replaced == old(replaced) && wronged == old(wronged) && misread == old(misread)
      ensures bootPrepared == old(bootPrepared)
      ensures old(plan) == [] ==> plan == [] && o.Done? && enforced == old(enforced) && clock == old(clock)
      ensures Single(old(plan)) ==> plan == [] && !o.Dead?
    {
      var e := Next();
      o := match e.fault case Fine => Done case Refused => NotDone case Lost => NotDone case _ => Dead;
    }

    /** The atomic replacement of the journal file. */
    method WriteJournal(j: Journal) returns (o: Outcome)
      requires Valid() && Sound(j, Truth()) && (bootPrepared ==> j.backup != "") && Unarchived(j.transaction)
      modifies this
      ensures Valid() && LaterFacts(old(Truth()), Truth()) && Sound(j, Truth())
      ensures history == old(history) && replaced == old(replaced) && wronged == old(wronged) && misread == old(misread) && bootPrepared == old(bootPrepared)
      ensures disk == old(disk) || disk == Some(j)
      ensures o.Done? ==> disk == Some(j)
      ensures old(plan) == [] ==> plan == [] && o.Done? && enforced == old(enforced) && clock == old(clock)
      ensures Single(old(plan)) ==> plan == [] && !o.Dead?
    {
      var e := Next();
      SoundLater(j, old(Truth()), Truth());
      hide Sound;
      match e.fault
      case Fine => disk := Some(j); o := Done;
      case Refused => o := NotDone;
      case Lost => disk := Some(j); o := NotDone;
      case DiesBefore => o := Dead;
      case DiesAfter => disk := Some(j); o := Dead;
    }

    /** Asks the daemon whether the generation is committed; the answer also needs the policy enforced. */
    method GenerationCommitted() returns (o: Outcome, answer: bool)
      requires Valid() && generation != 0
      modifies this
      ensures Valid() && LaterFacts(old(Truth()), Truth())
      ensures disk == old(disk) && history == old(history) && replaced == old(replaced) && wronged == old(wronged) && bootPrepared == old(bootPrepared)
      ensures o.Done? && answer ==> committed
      ensures o.Done? && !answer && committed ==> misread
      ensures old(plan) == [] ==> plan == [] && o.Done? && answer == (committed && enforced) && enforced == old(enforced) && clock == old(clock)
    {
      o := Ask();
      answer := committed && enforced;
      if o.Done? && committed && !answer {
        misread := true;
        if disk.Some? {
          SoundLater(disk.value, old(Truth()), Truth());
        }
      }
    }

    /** Undoes the setup; asks for a reboot only when the boot state had been prepared. */
    method CallRollback() returns (o: Outcome, reboot: bool)
      requires Valid() && (committed ==> misread)
      modifies this
      ensures Valid() && LaterFacts(old(Truth()), Truth())
      ensures disk == old(disk) && history == old(history) && replaced == old(replaced) && misread == old(misread) && bootPrepared == old(bootPrepared)
      ensures wronged == (old(wronged) || committed)
      ensures reboot ==> bootPrepared && o.NotDone?
      ensures old(plan) == [] ==> plan == [] && clock == old(clock) && (o.Done? || reboot) && (reboot <==> bootPrepared)
    {
      wronged := wronged || committed;
      var calm := plan == [];
      o := Ask();
      // With the boot state prepared, undoing it needs one more boot.
      reboot := o.Done? && bootPrepared;
      if reboot {
        o := NotDone;
      }
    }

    // ---- Recovery, shared by the engine and the watchdog ----

    /** Finishes the transaction that the journal describes, forwards if it is committed, else backwards. */
    method Recover(j: Journal, early: bool) returns (r: Ending)
      requires Valid() && Sound(j, Truth()) && (bootPrepared ==> j.backup != "") && Unarchived(j.transaction)
      requires NeedsRecovery(j.status) || j.status.RebootRequired?
      modifies this
      ensures Valid() && history == old(history) && replaced == old(replaced)
      ensures LaterFacts(old(Truth()), Truth()) && FromRecovery(r)
      ensures r.RolledBackNow? ==> disk.Some? && Terminal(disk.value)
      ensures r.RecoveredNow? ==> disk.Some? && disk.value.status.Completed? && committed
      ensures r.AskReboot? ==> disk.Some? && disk.value.status.RollbackReboot?
      ensures old(plan) == [] ==> plan == [] && (r.RolledBackNow? || r.RecoveredNow? || r.AskReboot?)
      ensures old(plan) == [] ==> (r.RecoveredNow? <==> committed && !RollsBackCommitted(j, committed, old(enforced)))
      ensures old(plan) == [] ==> wronged == (old(wronged) || RollsBackCommitted(j, committed, old(enforced)))
      ensures old(plan) == [] ==> RecoveredAs(j, early, old(committed), old(enforced), old(bootPrepared), old(clock), disk, r)
    {
      var k := j;
      if early && BeforeMutation(j) {
        k := k.(phase := Failed, status := RolledBack, error := "CAUSE", updated := clock);
        var written := WriteJournal(k);
        return match written case Done => RolledBackNow case NotDone => Stopped case Dead => Died;
      }
      var o;
      o, k := Inspected(j);
      if o.Dead? {
        return Died;
      }
      if o.NotDone? {
        r := RecordUnknown(j);
        return;
      }
      hide Sound, Lineage;
      var cause := if early then "CAUSE" else j.error;
      if k.committed {
        r := RecoverForward(k, cause);
      } else {
        r := RecoverBackward(k, cause);
      }
    }

    /** Whether the generation is committed: as the journal says, else by inspection, unless it is rolling back already. */
    method Inspected(j: Journal) returns (o: Outcome, k: Journal)
      requires Valid() && Sound(j, Truth()) && (NeedsRecovery(j.status) || j.status.RebootRequired?)
      modifies this
      ensures Valid() && LaterFacts(old(Truth()), Truth())
      ensures disk == old(disk) && history == old(history) && replaced == old(replaced) && wronged == old(wronged) && bootPrepared == old(bootPrepared)
      ensures k == j.(committed := k.committed)
      ensures o.Done? && k.committed ==> committed && Sound(k.(status := RecoveringCommitted), Truth())
      ensures o.Done? && !k.committed ==> (committed ==> misread) && Sound(k.(status := RollingBack), Truth())
      ensures o.NotDone? ==> NeedsRecovery(j.status) && !Rolling(j.status) && !j.committed && j.generation != 0 && Sound(j, Truth())
      ensures old(plan) == [] ==> plan == [] && o.Done? && clock == old(clock) && enforced == old(enforced)
      ensures old(plan) == [] ==>
        (k.committed <==> j.committed || (!j.status.RollingBack? && !j.status.RollbackFailed? && j.generation != 0 && old(committed) && old(enforced)))
    {
      hide Lineage;
      o, k := Done, j;
      if !j.committed && !Rolling(j.status) && j.generation != 0 {
        var answer;
        o, answer := GenerationCommitted();
        SoundLater(j, old(Truth()), Truth());
        k := j.(committed := o.Done? && answer);
      }
    }

    method RecordUnknown(j: Journal) returns (r: Ending)
      requires Valid() && Sound(j, Truth()) && (bootPrepared ==> j.backup != "") && Unarchived(j.transaction)
      requires NeedsRecovery(j.status) && !Rolling(j.status) && !j.committed && j.generation != 0
      modifies this
      ensures Valid() && history == old(history) && replaced == old(replaced) && LaterFacts(old(Truth()), Truth())
      ensures r.StateUnknown? || r.Stopped? || r.Died?
    {
      var written := WriteJournal(j.(status := CommitStateUnknown, error := "SETUP_COMMIT_STATE_UNKNOWN", updated := clock));
      r := match written case Done => StateUnknown case NotDone => Stopped case Dead => Died;
    }

    /** The generation is committed: publish, enable, finalize, and record completion. */
    method RecoverForward(k: Journal, cause: string) returns (r: Ending)
      requires Valid() && (bootPrepared ==> k.backup != "") && Unarchived(k.transaction)
      requires committed && k.committed && Sound(k.(status := RecoveringCommitted), Truth())
      modifies this
      ensures Valid() && history == old(history) && replaced == old(replaced) && LaterFacts(old(Truth()), Truth()) && wronged == old(wronged)
      ensures r.RecoveredNow? || r.RecoveryIncomplete? || r.Stopped? || r.Died?
      ensures r.RecoveredNow? ==> disk.Some? && disk.value.status.Completed? && committed
      ensures old(plan) == [] ==> plan == [] && r.RecoveredNow?
      ensures old(plan) == [] ==> disk == Some(k.(phase := Complete, status := Completed, error := "", updated := old(clock)))
    {
      hide Lineage;
      var j := k.(status := RecoveringCommitted, error := cause, updated := clock);
      var o := WriteJournal(j);
      if !o.Done? {
        return if o.Dead? then Died else Stopped;
      }
      o := Ask();
      if o.Dead? {
        return Died;
      }
      if o.NotDone? {
        o := WriteJournal(j.(status := CommittedRecoveryFailed, error := "RECOVERY", updated := clock));
        return match o case Done => RecoveryIncomplete case NotDone => Stopped case Dead => Died;
      }
      o := WriteJournal(j.(phase := Complete, status := Completed, error := "", updated := clock));
      r := match o case Done => RecoveredNow case NotDone => Stopped case Dead => Died;
    }

    /** The generation is taken to be uncommitted: record that, then undo. */
    method RecoverBackward(k: Journal, cause: string) returns (r: Ending)
      requires Valid() && (bootPrepared ==> k.backup != "") && (committed ==> misread) && Unarchived(k.transaction)
      requires Sound(k.(status := RollingBack), Truth())
      modifies this
      ensures Valid() && history == old(history) && replaced == old(replaced) && LaterFacts(old(Truth()), Truth())
      ensures r.RolledBackNow? || r.RollbackIncomplete? || r.AskReboot? || r.Stopped? || r.Died?
      ensures r.RolledBackNow? ==> disk.Some? && Terminal(disk.value)
      ensures r.AskReboot? ==> disk.Some? && disk.value.status.RollbackReboot?
      ensures old(plan) == [] ==> plan == [] && (r.RolledBackNow? || r.AskReboot?) && wronged == (old(wronged) || committed)
      ensures old(plan) == [] && old(bootPrepared) ==> r.AskReboot? && disk == Some(k.(phase := Failed, status := RollbackReboot, error := "", updated := old(clock)))
      ensures old(plan) == [] && !old(bootPrepared) ==> r.RolledBackNow? && disk == Some(k.(phase := Failed, status := RolledBack, error := cause, updated := old(clock)))
    {
      hide Lineage;
      var j := k.(status := RollingBack, error := cause, updated := clock);
      var o := WriteJournal(j);
      if !o.Done? {
        return if o.Dead? then Died else Stopped;
      }
      var reboot: bool;
      o, reboot := CallRollback();
      if o.Dead? {
        return Died;
      }
      if reboot {
        o := WriteJournal(j.(phase := Failed, status := RollbackReboot, error := "", updated := clock));
        return match o case Done => AskReboot case NotDone => Stopped case Dead => Died;
      }
      if o.NotDone? {
        o := WriteJournal(j.(status := RollbackFailed, error := "ROLLBACK", updated := clock));
        return match o case Done => RollbackIncomplete case NotDone => Stopped case Dead => Died;
      }
      o := WriteJournal(j.(phase := Failed, status := RolledBack, updated := clock));
      r := match o case Done => RolledBackNow case NotDone => Stopped case Dead => Died;
    }

    // ---- The engine ----

    /** Archives the terminal journal it replaces before publishing the first journal of a new transaction. */
    method Begin(first: Journal, prior: Option<Journal>) returns (o: Outcome)
      requires Valid() && first.phase.Inspect? && first.status.Running? && BeforeMutation(first)
      requires first.error == "" && first.started == clock && first.deadline >= clock && Unarchived(first.transaction)
      modifies this
      ensures Valid() && old(history) <= history && old(replaced) <= replaced
      ensures disk != old(disk) ==> disk == Some(first)
      ensures disk != old(disk) && old(disk).Some? ==> old(disk).value in history && old(disk).value in replaced
      ensures Unarchived(first.transaction)
      ensures o.Done? ==> disk == Some(first) && LaterFacts(Facts(0, false, false, old(clock)), Truth()) && !bootPrepared
      ensures old(plan) == [] ==> plan == [] && clock == old(clock) && enforced == old(enforced)
      ensures old(plan) == [] ==> (o.Done? <==> MayBegin(old(disk), prior, first))
    {
      hide Lineage;
      if !MayBegin(disk, prior, first) {
        return NotDone;
      }
      if prior.Some? {
        o := Archive(prior.value);
        if !o.Done? {
          return;
        }
      }
      o := Start(first);
    }

    /** The first journal of a transaction, which has applied no generation yet. */
    method Start(first: Journal) returns (o: Outcome)
      requires Valid() && first.phase.Inspect? && first.status.Running? && BeforeMutation(first)
      requires first.error == "" && first.started <= clock && first.started <= first.deadline && Unarchived(first.transaction)
      requires disk.Some? ==> Terminal(disk.value) && disk.value in history
      modifies this
      ensures Valid() && history == old(history) && old(replaced) <= replaced
      ensures disk == old(disk) || disk == Some(first)
      ensures disk != old(disk) && old(disk).Some? ==> old(disk).value in replaced
      ensures o.Done? ==> disk == Some(first) && LaterFacts(Facts(0, false, false, old(clock)), Truth()) && !bootPrepared
      ensures old(plan) == [] ==> plan == [] && o.Done? && clock == old(clock) && enforced == old(enforced)
    {
      hide Lineage;
      generation, committed, bootPrepared, misread, wronged := 0, false, false, false, false;
      ghost var before := disk;
      o := WriteJournal(first);
      if disk != before && before.Some? {
        replaced := replaced + {before.value};
      }
    }

    method Archive(terminal: Journal) returns (o: Outcome)
      requires Valid() && disk == Some(terminal) && Terminal(terminal)
      modifies this
      ensures Valid() && LaterFacts(old(Truth()), Truth()) && disk == old(disk) && replaced == old(replaced)
      ensures bootPrepared == old(bootPrepared)
      ensures old(history) <= history <= old(history) + {terminal}
      ensures o.Done? ==> terminal in history
      ensures old(plan) == [] ==> plan == [] && o.Done? && clock == old(clock) && enforced == old(enforced)
    {
      var e := Next();
      match e.fault
      case Fine => history := history + {terminal}; o := Done;
      case Refused => o := NotDone;
      case Lost => history := history + {terminal}; o := NotDone;
      case DiesBefore => o := Dead;
      case DiesAfter => history := history + {terminal}; o := Dead;
    }

    /** Installs what the next boot needs. */
    method PrepareBoot() returns (o: Outcome)
      requires Valid() && disk.Some? && disk.value.backup != ""
      modifies this
      ensures Valid() && LaterFacts(old(Truth()), Truth()) && disk == old(disk)
      ensures history == old(history) && replaced == old(replaced)
      ensures old(plan) == [] ==> plan == [] && o.Done?
    {
      var e := Next();
      if !e.fault.Refused? && !e.fault.DiesBefore? {
        bootPrepared := true;
      }
      o := match e.fault case Fine => Done case Refused => NotDone case Lost => NotDone case _ => Dead;
    }

    /** Applies a candidate generation under the safe-apply timer. */
    method ApplySafe() returns (o: Outcome, id: nat)
      requires Valid() && generation == 0 && !committed && disk.Some? && disk.value.phase.Apply? && disk.value.generation == 0
      modifies this
      ensures Valid() && disk == old(disk) && history == old(history) && replaced == old(replaced)
      ensures LaterFacts(Facts(generation, false, old(misread), old(clock)), Truth()) && bootPrepared == old(bootPrepared)
      ensures o.Done? ==> id != 0 && id == generation
      ensures old(plan) == [] ==> plan == [] && o.Done? && clock == old(clock)
      ensures Single(old(plan)) ==> plan == [] && !o.Dead?
    {
      var e := Next();
      id := e.number + 1;
      if !e.fault.Refused? && !e.fault.DiesBefore? {
        generation := id;
      }
      o := match e.fault case Fine => Done case Refused => NotDone case Lost => NotDone case _ => Dead;
    }

    /** The only call that commits the generation. */
    method CommitGeneration(ghost j: Journal) returns (o: Outcome)
      requires Valid() && disk == Some(j) && j.phase.Commit? && j.status.Running? && Sound(j, Truth())
      modifies this
      ensures Valid() && disk == old(disk) && history == old(history) && replaced == old(replaced)
      ensures LaterFacts(Facts(old(generation), committed, old(misread), old(clock)), Truth()) && bootPrepared == old(bootPrepared)
      ensures o.Done? ==> committed
      ensures Sound(j, Truth())
      ensures old(plan) == [] ==> plan == [] && o.Done? && clock == old(clock)
      ensures Single(old(plan)) ==> plan == [] && !o.Dead?
    {
      var e := Next();
      if !e.fault.Refused? && !e.fault.DiesBefore? {
        committed := true;
      }
      o := match e.fault case Fine => Done case Refused => NotDone case Lost => NotDone case _ => Dead;
    }

    /** Between two steps: the journal on disk is the one in memory, and says how far the run has come. */
    ghost predicate Stepping(j: Journal, i: nat)
      reads this
    {
      && i <= |STEPS| && disk == Some(j) && Unarchived(j.transaction) && Sound(j, Truth()) && j.status.Running? && j.backup != ""
      && (if i == 0 then BeforeApply(j.phase) else j.phase == STEPS[i - 1])
      && (i <= 4 ==> generation == 0 && j.generation == 0)
      && (i > 4 ==> j.generation == generation != 0)
      && (committed <==> i > 7) && (j.committed <==> i > 7)
    }

    /** The mutating part of one step. */
    method Perform(j: Journal, i: nat) returns (o: Outcome, k: Journal)
      requires Valid() && i < |STEPS| && disk == Some(j) && Sound(j, Truth()) && j.phase == STEPS[i]
      requires j.status.Running? && j.backup != "" && (committed <==> i > 7) && (j.committed <==> i > 7)
      requires i <= 4 ==> generation == 0 && j.generation == 0
      requires i > 4 ==> j.generation == generation != 0
      modifies this
      ensures Valid() && disk == old(disk) && history == old(history) && replaced == old(replaced)
      ensures bootPrepared == old(bootPrepared)
      ensures Sound(k, Truth()) && k.transaction == j.transaction && k.status.Running? && k.phase == j.phase && k.backup == j.backup && k.deadline == j.deadline
      ensures o.Done? ==> (committed <==> i >= 7) && (k.committed <==> i >= 7)
      ensures o.Done? ==> if i < 4 then generation == 0 && k.generation == 0 else k.generation == generation != 0
      ensures old(plan) == [] ==> plan == [] && o.Done? && clock == old(clock)
      ensures Single(old(plan)) ==> plan == [] && !o.Dead?
    {
      k := j;
      if i == 4 {
        var id: nat;
        o, id := ApplySafe();
        if o.Done? {
          k := k.(generation := id);
        }
      } else if i == 7 {
        o := CommitGeneration(j);
        if o.Done? {
          k := k.(committed := true);
        }
      } else {
        ghost var before := Truth();
        var e := Next();
        SoundLater(j, before, Truth());
        o := match e.fault case Fine => Done case Refused => NotDone case Lost => NotDone case _ => Dead;
      }
    }

    /** One phase: deadline, journal, work, journal again. Any failure ends the run in recovery. */
    method RunStep(j: Journal, i: nat) returns (r: Option<Ending>, k: Journal)
      requires Valid() && i < |STEPS| && Stepping(j, i)
      modifies this
      ensures Valid() && history == old(history) && replaced == old(replaced)
      ensures r.None? ==> Stepping(k, i + 1) && k.deadline == j.deadline
      ensures r.Some? ==> !r.value.Protected? && !r.value.InvalidJournal?
      ensures old(plan) == [] && old(clock) < j.deadline ==> plan == [] && r.None? && clock == old(clock)
      ensures r.Some? && (old(plan) == [] || (Single(old(plan)) && old(clock) < j.deadline)) ==> Over(r.value)
      ensures j.deadline <= old(clock) ==> r.Some?
    {
      k := j;
      if clock >= j.deadline {
        r := EndIn(k);
        return;
      }
      k := k.(phase := STEPS[i], updated := clock);
      var o := WriteJournal(k);
      if !o.Done? {
        r := EndAfter(o, k);
        return;
      }
      o, k := Perform(k, i);
      if !o.Done? {
        r := EndAfter(o, k);
        return;
      }
      k := k.(updated := clock);
      o := WriteJournal(k);
      if !o.Done? {
        r := EndAfter(o, k);
        return;
      }
      r := None;
    }

    method EndIn(j: Journal) returns (r: Option<Ending>)
      requires Valid() && Sound(j, Truth()) && NeedsRecovery(j.status) && (bootPrepared ==> j.backup != "") && Unarchived(j.transaction)
      modifies this
      ensures Valid() && history == old(history) && replaced == old(replaced)
      ensures r.Some? && !r.value.Protected? && !r.value.InvalidJournal?
      ensures old(plan) == [] ==> Over(r.value)
    {
      var ending := Recover(j, true);
      r := Some(ending);
    }

    /** A death ends everything; any other failure is recovered from at once. */
    method EndAfter(o: Outcome, j: Journal) returns (r: Option<Ending>)
      requires Valid() && Sound(j, Truth()) && NeedsRecovery(j.status) && (bootPrepared ==> j.backup != "") && !o.Done? && Unarchived(j.transaction)
      modifies this
      ensures Valid() && history == old(history) && replaced == old(replaced)
      ensures r.Some? && !r.value.Protected? && !r.value.InvalidJournal?
      ensures old(plan) == [] && o.NotDone? ==> Over(r.value)
    {
      if o.Dead? {
        return Some(Died);
      }
      r := EndIn(j);
    }

    /** Every phase after the preparation, then completion. */
    method RunPhases(j: Journal) returns (r: Ending)
      requires Valid() && Stepping(j, 0)
      modifies this
      ensures Valid() && history == old(history) && replaced == old(replaced) && !r.InvalidJournal?
      ensures r.Protected? ==> disk.Some? && disk.value.status.Completed? && committed
      ensures old(plan) == [] && old(clock) < j.deadline ==> r.Protected?
    {
      var k := j;
      for i := 0 to |STEPS|
        invariant Valid() && Stepping(k, i) && history == old(history) && replaced == old(replaced)
        invariant k.deadline == j.deadline
        invariant old(plan) == [] && old(clock) < j.deadline ==> plan == [] && clock == old(clock)
      {
        var ended: Option<Ending>;
        ended, k := RunStep(k, i);
        if ended.Some? {
          return ended.value;
        }
      }
      var o := WriteJournal(k.(phase := Complete, status := Completed, error := "", updated := clock));
      r := match o case Done => Protected case NotDone => Stopped case Dead => Died;
    }

    /** A new transaction up to the point where phases run, or a reboot is asked for. */
    method RunFresh(p: Request) returns (r: Ending)
      requires Valid() && p.backup != "" && p.timeout > 0 && Unarchived(p.transaction)
      modifies this
      ensures Valid() && old(history) <= history && !r.InvalidJournal?
      ensures r.Protected? ==> disk.Some? && disk.value.status.Completed? && committed
      ensures old(plan) == [] && !p.bootRequired ==> (r.Protected? <==> MayBegin(old(disk), p.prior, FirstJournal(p, old(clock))))
    {
      var j := FirstJournal(p, clock);
      var o := Begin(j, p.prior);
      if !o.Done? {
        return if o.Dead? then Died else Stopped;
      }
      j := j.(phase := Backup, updated := clock);
      o := WriteJournal(j);
      if o.Done? {
        o := Ask();
      }
      if !o.Done? {
        var ended := EndAfter(o, j);
        return ended.value;
      }
      j := j.(backup := p.backup, updated := clock);
      o := WriteJournal(j);
      if !o.Done? {
        var ended := EndAfter(o, j);
        return ended.value;
      }
      if p.bootRequired {
        r := PrepareAndAsk(j);
      } else {
        r := RunPhases(j);
      }
    }

    method PrepareAndAsk(j0: Journal) returns (r: Ending)
      requires Valid() && Stepping(j0, 0) && j0.phase.Backup? && j0.error == ""
      modifies this
      ensures Valid() && history == old(history) && replaced == old(replaced) && !r.InvalidJournal? && !r.Protected?
    {
      var j := j0.(phase := BootPrep, updated := clock);
      var o := WriteJournal(j);
      if o.Done? {
        o := PrepareBoot();
      }
      if !o.Done? {
        var ended := EndAfter(o, j);
        return ended.value;
      }
      var asking := j.(status := RebootRequired, error := "", updated := clock);
      o := WriteJournal(asking);
      if o.NotDone? {
        // The journal in memory already asks for a reboot.
        r := Recover(asking, true);
        return if r.Protected? then Stopped else r;
      }
      r := if o.Done? then AskReboot else Died;
    }

    /** Continues after the reboot that an earlier run asked for. */
    method RunResumed(p: Request, found: Journal) returns (r: Ending)
      requires Valid() && disk == Some(found) && p.timeout > 0
      modifies this
      ensures Valid() && history == old(history) && replaced == old(replaced) && !r.InvalidJournal?
      ensures r.Protected? ==> disk.Some? && disk.value.status.Completed? && committed
    {
      if !p.bootRequired || !(found.phase.BootPrep? && (found.status.RebootRequired? || found.status.ResumeReady?)) {
        return Stopped;
      }
      if !p.ready {
        return AskReboot;
      }
      var j := found.(status := ResumeReady, error := "", updated := clock, deadline := clock + p.timeout);
      var o := WriteJournal(j);
      if !o.Done? {
        return if o.Dead? then Died else Stopped;
      }
      o := Ask();
      if !o.Done? {
        var ended := EndAfter(o, j);
        return ended.value;
      }
      j := j.(status := Running, updated := clock);
      o := WriteJournal(j);
      if !o.Done? {
        var ended := EndAfter(o, j);
        return ended.value;
      }
      r := RunPhases(j);
    }

    /** A whole setup run; what it prepared was read under the lock it holds. */
    method Run(p: Request) returns (r: Ending)
      requires Valid() && p.backup != "" && p.timeout > 0 && (p.resume ==> disk.Some?)
      requires !p.resume ==> Unarchived(p.transaction)
      modifies this
      ensures Valid() && old(history) <= history && !r.InvalidJournal?
      ensures r.Protected? ==> disk.Some? && disk.value.status.Completed? && committed
      ensures old(plan) == [] && !p.bootRequired && !p.resume ==>
        (r.Protected? <==> MayBegin(old(disk), p.prior, FirstJournal(p, old(clock))))
    {
      if p.resume {
        r := RunResumed(p, disk.value);
      } else {
        r := RunFresh(p);
      }
    }

    /** The engine's own look at an expired transaction. */
    method RollbackExpired() returns (r: Ending)
      requires Valid()
      modifies this
      ensures Valid() && history == old(history) && replaced == old(replaced) && !r.InvalidJournal?
      ensures old(disk).Some? && (old(clock) < old(disk).value.deadline || !Unfinished(old(disk).value)) ==> disk == old(disk) && r.Nothing?
      ensures old(plan) == [] && old(disk).Some? && Unfinished(old(disk).value) && old(disk).value.deadline <= old(clock) ==>
        RecoveredAs(old(disk).value, true, old(committed), old(enforced), old(bootPrepared), old(clock), disk, r)
    {
      if disk.None? {
        return Stopped;
      }
      var j := disk.value;
      if !NeedsRecovery(j.status) || clock < j.deadline {
        return Nothing;
      }
      r := Recover(j, true);
    }

    // ---- The watchdog, the operator and the package scripts ----

    /**
     Roll-back by the timer or by an operator. The timer first looked at a journal without the lock, and
     drops out if that was not expired or if the transaction has changed since.
     */
    method RollbackCommand(expiredOnly: bool, seen: Journal) returns (r: Ending)
      requires Valid()
      modifies this
      ensures Valid() && history == old(history) && replaced == old(replaced)
      ensures r.InvalidJournal? ==> expiredOnly && !Accepted(seen)
      ensures expiredOnly && old(disk).Some? && old(clock) < old(disk).value.deadline ==> disk == old(disk)
      ensures !expiredOnly && old(plan) == [] && old(disk).Some? && NeedsRecovery(old(disk).value.status) ==>
        wronged == (old(wronged) || RollsBackCommitted(old(disk).value, old(committed), old(enforced)))
      ensures expiredOnly && old(plan) == [] && Expired(seen, old(clock)) && StillExpired(seen, old(disk), old(clock)) ==>
        wronged == (old(wronged) || RollsBackCommitted(old(disk).value, old(committed), old(enforced)))
      ensures expiredOnly && !(Expired(seen, old(clock)) && MayTakeOver(seen, old(disk), old(clock))) ==>
        wronged == old(wronged) && disk == old(disk)
      ensures old(plan) == [] && TakenOver(expiredOnly, seen, old(disk), old(clock)) ==>
        RecoveredAs(old(disk).value, false, old(committed), old(enforced), old(bootPrepared), old(clock), disk, r)
      ensures !TakenOver(expiredOnly, seen, old(disk), old(clock)) && !(!expiredOnly && old(disk).Some? && old(disk).value.status.RollbackReboot?) ==>
        disk == old(disk) && (r.Nothing? || r.Stopped? || r.InvalidJournal? || r.JournalChanged?)
    {
      assert disk.Some? ==> Accepted(disk.value);
      hide Sound, Accepted, Lineage, RecoveredAs, RollsBackCommitted;
      if expiredOnly {
        var good := CheckJournal(seen);
        if !good {
          return InvalidJournal;
        }
        if !NeedsRecovery(seen.status) || clock < seen.deadline {
          return Nothing;
        }
      }
      if disk.None? {
        return Stopped;
      }
      var j := disk.value;
      var good := CheckJournal(j);
      if !good {
        return InvalidJournal;
      }
      if expiredOnly && (j.transaction != seen.transaction || j.started != seen.started) {
        return JournalChanged;
      }
      if j.status.RollbackReboot? && !expiredOnly {
        r := FinalizeBootRollback(j);
        return;
      }
      if !NeedsRecovery(j.status) && !j.status.RebootRequired? {
        return Nothing;
      }
      if expiredOnly && clock < j.deadline {
        return Nothing;
      }
      r := Recover(j, false);
    }

    /** After the inverse boot; an uncommitted generation stays recorded as retry evidence. */
    method FinalizeBootRollback(j: Journal) returns (r: Ending)
      requires Valid() && disk == Some(j) && j.status.RollbackReboot?
      modifies this
      ensures Valid() && history == old(history) && replaced == old(replaced) && wronged == old(wronged)
      ensures r.RolledBackNow? ==> disk.Some? && Terminal(disk.value)
      ensures r.RolledBackNow? ==> disk.value.generation == if j.committed then 0 else j.generation
      ensures r.RolledBackNow? || r.Stopped? || r.Died?
      ensures old(plan) == [] ==> r.RolledBackNow?
    {
      var o := Ask();
      if !o.Done? {
        return if o.Dead? then Died else Stopped;
      }
      SoundLater(j, old(Truth()), Truth());
      o := WriteJournal(j.(status := RolledBack, phase := Failed, error := "",
        generation := if j.committed then 0 else j.generation, committed := false, updated := clock));
      r := match o case Done => RolledBackNow case NotDone => Stopped case Dead => Died;
    }

    /** Hands the boot policy back when the package is removed or downgraded. */
    method BootHandoff() returns (r: Ending)
      requires Valid()
      modifies this
      ensures Valid() && history == old(history) && replaced == old(replaced) && wronged == old(wronged)
      ensures r.RolledBackNow? ==> disk.Some? && Terminal(disk.value) && disk.value.generation == 0
      ensures r.AskReboot? ==> disk.Some? && disk.value.status.RollbackReboot?
      ensures !r.InvalidJournal?
      ensures old(disk).None? || old(disk).value.status.RolledBack? || (Unfinished(old(disk).value) && !old(disk).value.status.ResumeReady?) ==>
        disk == old(disk) && r.Stopped?
      ensures old(plan) == [] && old(disk).Some? && !old(disk).value.status.RolledBack? && (Unfinished(old(disk).value) ==> old(disk).value.status.ResumeReady?) ==>
        r.RolledBackNow?
    {
      if disk.None? {
        return Stopped;
      }
      var j := disk.value;
      if !j.status.Completed? && !j.status.RebootRequired? && !j.status.ResumeReady? && !j.status.RollbackReboot? {
        return Stopped;
      }
      var e := Next();
      SoundLater(j, old(Truth()), Truth());
      if !e.fault.Fine? {
        return if e.fault.Refused? || e.fault.Lost? then Stopped else Died;
      }
      assert Unarchived(j.transaction);
      HandedBack(j, Truth(), clock);
      hide Lineage, Sound;
      var k := j.(phase := Failed, error := "", updated := clock);
      if e.number == 0 {
        var o := WriteJournal(k.(status := RollbackReboot));
        return match o case Done => AskReboot case NotDone => Stopped case Dead => Died;
      }
      var o := WriteJournal(k.(status := RolledBack, committed := false, generation := 0));
      r := match o case Done => RolledBackNow case NotDone => Stopped case Dead => Died;
    }

    /**
     Reads the current terminal journal and the archive: every terminal transaction exactly once, and no
     archive that setup itself left behind is ever found ambiguous.
     */
    method ReadLineage() returns (ok: bool, result: seq<Journal>)
      requires Valid() && disk.Some? && Terminal(disk.value)
      ensures ok
      ensures forall j :: j in result <==> j == disk.value || j in history
      ensures forall i, k :: 0 <= i < k < |result| ==> result[i].transaction != result[k].transaction
    {
      var current := disk.value;
      result := [current];
      var seen, todo := {current.transaction}, history;
      while todo != {}
        invariant todo <= history
        invariant forall j :: j in result <==> j == current || j in history - todo
        invariant forall i :: 0 <= i < |result| ==> result[i].transaction in seen
        invariant forall t :: t in seen ==> t == current.transaction || exists h :: h in history - todo && h.transaction == t
        invariant forall i, k :: 0 <= i < k < |result| ==> result[i].transaction != result[k].transaction
        decreases |todo|
      {
        var entry :| entry in todo;
        todo := todo - {entry};
        if !entry.status.RolledBack? || !entry.phase.Failed? || entry.committed {
          return false, result;
        }
        if entry.transaction == current.transaction {
          if entry != current {
            return false, result;
          }
          continue;
        }
        if entry.transaction in seen {
          return false, result;
        }
        seen, result := seen + {entry.transaction}, result + [entry];
      }
      ok := true;
    }

    /** Any sequence of commands, with any faults: every journal found on disk is one the watchdog accepts. */
    method Serve(commands: seq<Command>) returns (endings: seq<Ending>)
      requires Valid() && forall i :: 0 <= i < |commands| ==> CommandOk(commands[i])
      modifies this
      ensures Valid() && old(history) <= history
      ensures disk.Some? ==> Accepted(disk.value)
      ensures forall i :: 0 <= i < |endings| ==> !endings[i].InvalidJournal?
    {
      endings := [];
      for i := 0 to |commands|
        invariant Valid() && old(history) <= history
        invariant forall k :: 0 <= k < |endings| ==> !endings[k].InvalidJournal?
      {
        var r := Nothing;
        match commands[i] {
          case DoSetup(p) =>
            // Transaction names are the time they begin, so none is used twice.
            if (p.resume && disk.Some?) || (!p.resume && Unarchived(p.transaction)) {
              r := Run(p);
            }
          case DoRollback(expiredOnly, seen) => r := RollbackCommand(expiredOnly, seen);
          case DoHandoff => r := BootHandoff();
          case DoExpire => r := RollbackExpired();
        }
        endings := endings + [r];
      }
    }
  }

  datatype Request = Request(
    bootRequired: bool, resume: bool, ready: bool, prior: Option<Journal>, transaction: nat, backup: string, timeout: nat)

  datatype Command = DoSetup(p: Request) | DoRollback(expiredOnly: bool, seen: Journal) | DoHandoff | DoExpire

  /** Back-up paths are canonical, timeouts positive, and what the timer saw was once on disk. */
  predicate CommandOk(c: Command) {
    match c
    case DoSetup(p) => p.backup != "" && p.timeout > 0
    case DoRollback(_, seen) => Accepted(seen)
    case DoHandoff => true
    case DoExpire => true
  }

  function FirstJournal(p: Request, now: int): Journal {
    Journal(p.transaction, Inspect, Running, now, now, now + p.timeout, "", 0, false, "")
  }

  /** A transaction may begin where there is no journal, or exactly the terminal one it was told about. */
  predicate MayBegin(disk: Option<Journal>, prior: Option<Journal>, first: Journal) {
    if prior.None? then disk.None?
    else disk == prior && Terminal(prior.value) && prior.value.transaction != first.transaction
  }
}
