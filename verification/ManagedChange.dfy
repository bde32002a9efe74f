/**
 A managed policy change: two files and a firewall generation that must move together, with a journal
 that may be cleared only when they have. Every file write, removal and daemon call may fail, be lost
 after taking effect, or be the last thing the process does; the safe-apply timer runs on its own.
 */
module ManagedChange {
  import opened Wrappers

  /** A generation of the daemon; a published one only waits to be finalized. */
  datatype Generation = Applied | Published | Committed | RolledBack

  datatype Status = Running | Complete | Reverted

  datatype Phase = Prepared | FilesPublished | PhaseApplied | Ended

  datatype Record = Record(
    status: Status, phase: Phase, generation: nat,
    oldIntent: string, oldConfig: string, newIntent: string, newConfig: string,
    started: int, deadline: int)

  const TIMEOUT: nat := 120

  datatype Fault = Fine | Refused | Lost | Half | DiesBefore | DiesAfter

  /** What happens at one call; the daemon's own timer may have fired before it. */
  datatype Event = Event(fault: Fault, elapse: nat, timer: bool)

  datatype Outcome = Done | NotDone | Dead

  datatype Ending = Changed | Restored | Finished | Nothing | Busy | Failing | Died

  predicate ValidState(s: Status, p: Phase) {
    match s
    case Running => !p.Ended?
    case Complete => p.Ended?
    case Reverted => p.Ended?
  }

  /** The world a journal was cleared in. */
  datatype Clearing = Clearing(record: Record, intent: string, config: string, committed: bool)

  /** Both files new and the generation committed, or both old and it never was. */
  predicate Settled(c: Clearing) {
    || (c.intent == c.record.newIntent && c.config == c.record.newConfig && c.committed)
    || (c.intent == c.record.oldIntent && c.config == c.record.oldConfig && !c.committed)
  }

  predicate IsCommitted(gens: seq<Generation>, id: nat) {
    1 <= id <= |gens| && (gens[id - 1].Published? || gens[id - 1].Committed?)
  }

  /** What the daemon's timer and its recovery do on their own: finish what is published, undo what is not. */
  function Timed(gens: seq<Generation>): (r: seq<Generation>)
    ensures |r| == |gens|
  {
    seq(|gens|, i requires 0 <= i < |gens| =>
      match gens[i] case Applied => RolledBack case Published => Committed case g => g)
  }

  predicate Free(gens: seq<Generation>) {
    forall i :: 0 <= i < |gens| ==> !gens[i].Applied? && !gens[i].Published?
  }

  /** Committing is final, and only applied generations can still be committed. */
  ghost predicate Onward(gens: seq<Generation>, later: seq<Generation>) {
    && |gens| <= |later|
    && forall id :: 1 <= id <= |gens| ==> (IsCommitted(gens, id) ==> IsCommitted(later, id))
  }

  /** No generation has become committed meanwhile, and none that was rolled back is back. */
  ghost predicate Uncommitting(gens: seq<Generation>, later: seq<Generation>) {
    |gens| == |later| && forall i :: 0 <= i < |gens| ==> Keeps(gens[i], later[i])
  }

  predicate Keeps(g: Generation, h: Generation) {
    (g.Committed? ==> h.Committed?) && (g.RolledBack? ==> h.RolledBack?) && (h.Published? || h.Committed? <==> g.Published? || g.Committed?)
  }

  lemma TimedKeeps(gens: seq<Generation>)
    ensures Uncommitting(gens, Timed(gens))
  {
  }

  /** A recovery decides every unfinished change, or only one past its deadline. */
  predicate Acts(expiredOnly: bool, r: Record, clock: int) {
    !r.status.Running? || !expiredOnly || r.deadline <= clock
  }

  /** The change came out as its generation did: committed, with both new files, or rolled back, with both old ones. */
  predicate DecidedAs(r: Record, before: seq<Generation>, intent: string, config: string, gens: seq<Generation>, ending: Ending) {
    && |gens| == |before| && (r.generation != 0 ==> r.generation <= |before|)
    && if r.generation != 0 && before[r.generation - 1].Committed? then
         ending.Finished? && intent == r.newIntent && config == r.newConfig && gens == before
       else
         && ending.Restored? && intent == r.oldIntent && config == r.oldConfig
         && (r.generation != 0 ==> gens[r.generation - 1].RolledBack?)
  }

  class Change {
    var intent: string
    var config: string
    var savedIntent: Option<string>
    var savedConfig: Option<string>
    var journal: Option<Record>
    var gens: seq<Generation>
    var clock: int
    var plan: seq<Event>
    ghost var own: nat
    ghost var cleared: seq<Clearing>

    /** What the journal's status promises about the two files and the change's own generation. */
    ghost predicate Sound(r: Record)
      reads this
    {
      && ValidState(r.status, r.phase) && r.started < r.deadline
      && (r.generation == 0 || r.generation == own)
      && match r.status
         case Running =>
           && (IsCommitted(gens, own) ==> r.generation == own)
           && savedIntent == Some(r.oldIntent) && savedConfig == Some(r.oldConfig)
         case Complete => intent == r.newIntent && config == r.newConfig && IsCommitted(gens, own)
         case Reverted => intent == r.oldIntent && config == r.oldConfig && !IsCommitted(gens, own)
    }

    ghost predicate Valid()
      reads this
    {
      && (journal.Some? ==> Sound(journal.value))
      && own <= |gens|
      && forall i :: 0 <= i < |cleared| ==> Settled(cleared[i])
    }

    constructor (i: string, c: string, existing: seq<Generation>, events: seq<Event>)
      ensures Valid() && intent == i && config == c && journal.None? && cleared == [] && plan == events && gens == existing
    {
      intent, config, savedIntent, savedConfig, journal := i, c, None, None, None;
      gens, clock, plan, own, cleared := existing, 0, events, 0, [];
    }

    // ---- Calls ----

    method Next() returns (e: Event)
      requires Valid()
      modifies this`plan, this`clock, this`gens
      ensures Valid() && Uncommitting(old(gens), gens) && old(clock) <= clock
      ensures old(plan) == [] ==> plan == [] && e == Event(Fine, 0, false) && gens == old(gens) && clock == old(clock)
      ensures e.fault.Fine? || |plan| < |old(plan)|
    {
      if plan == [] {
        return Event(Fine, 0, false);
      }
      e := plan[0];
      plan, clock := plan[1..], clock + e.elapse;
      if e.timer {
        TimedKeeps(gens);
        gens := Timed(gens);
      }
    }

    /** Whether the call's effect took place, and what the caller learns. */
    function Takes(f: Fault): bool {
      f.Fine? || f.Lost? || f.DiesAfter?
    }

    function Told(f: Fault): Outcome {
      match f case Fine => Done case Refused => NotDone case Lost => NotDone case Half => NotDone case _ => Dead
    }

    method WriteIntent(text: string) returns (o: Outcome)
      requires Valid() && (journal.Some? ==> journal.value.status.Running?)
      modifies this`plan, this`clock, this`gens, this`intent
      ensures Valid() && Uncommitting(old(gens), gens) && old(clock) <= clock
      ensures intent == text || (intent == old(intent) && !o.Done?)
      ensures old(plan) == [] ==> plan == [] && o.Done? && gens == old(gens) && clock == old(clock)
    {
      var e := Next();
      if Takes(e.fault) {
        intent := text;
      }
      o := Told(e.fault);
    }

    method WriteConfig(text: string) returns (o: Outcome)
      requires Valid() && (journal.Some? ==> journal.value.status.Running?)
      modifies this`plan, this`clock, this`gens, this`config
      ensures Valid() && Uncommitting(old(gens), gens) && old(clock) <= clock
      ensures config == text || (config == old(config) && !o.Done?)
      ensures old(plan) == [] ==> plan == [] && o.Done? && gens == old(gens) && clock == old(clock)
    {
      var e := Next();
      if Takes(e.fault) {
        config := text;
      }
      o := Told(e.fault);
    }

    /** The atomic replacement of the change journal. */
    method WriteRecord(r: Record) returns (o: Outcome)
      requires Valid() && Sound(r)
      modifies this`plan, this`clock, this`gens, this`journal
      ensures Valid() && Uncommitting(old(gens), gens) && Sound(r) && old(clock) <= clock
      ensures journal == Some(r) || (journal == old(journal) && !o.Done?)
      ensures old(plan) == [] ==> plan == [] && o.Done? && gens == old(gens) && clock == old(clock)
    {
      var e := Next();
      if Takes(e.fault) {
        journal := Some(r);
      }
      o := Told(e.fault);
    }

    /** Removes the old files' copies, then the journal, which must be terminal by now. */
    method Cleanup() returns (o: Outcome)
      requires Valid() && (journal.Some? ==> !journal.value.status.Running?)
      modifies this`plan, this`clock, this`gens, this`journal, this`savedIntent, this`savedConfig, this`cleared
      ensures Valid() && Uncommitting(old(gens), gens) && old(cleared) <= cleared && old(clock) <= clock
      ensures journal.None? || journal == old(journal)
      ensures o.Done? ==> journal.None?
      ensures old(plan) == [] ==> plan == [] && o.Done? && gens == old(gens) && clock == old(clock)
    {
      var e := Next();
      if Takes(e.fault) {
        savedIntent := None;
      }
      o := Told(e.fault);
      if !o.Done? {
        return;
      }
      e := Next();
      if Takes(e.fault) {
        savedConfig := None;
      }
      o := Told(e.fault);
      if !o.Done? {
        return;
      }
      o := DropJournal();
    }

    /** The journal of a decided change is removed. */
    method DropJournal() returns (o: Outcome)
      requires Valid() && (journal.Some? ==> !journal.value.status.Running?)
      modifies this`plan, this`clock, this`gens, this`journal, this`cleared
      ensures Valid() && Uncommitting(old(gens), gens) && old(cleared) <= cleared && old(clock) <= clock
      ensures journal.None? || journal == old(journal)
      ensures o.Done? ==> journal.None?
      ensures old(plan) == [] ==> plan == [] && o.Done? && gens == old(gens) && clock == old(clock)
    {
      var e := Next();
      if Takes(e.fault) && journal.Some? {
        cleared := cleared + [Clearing(journal.value, intent, config, IsCommitted(gens, own))];
        journal := None;
      }
      o := Told(e.fault);
    }

    /** A safe apply: a new generation, unless one is still in flight. */
    method ApiApply() returns (o: Outcome, id: nat)
      requires Valid() && journal.Some? && journal.value.status.Running? && journal.value.generation == 0 && own == 0
      modifies this`plan, this`clock, this`gens, this`own
      ensures Valid() && old(clock) <= clock && Onward(old(gens), gens) && !IsCommitted(gens, own)
      ensures o.Done? ==> id == own == |gens| && id > 0
      ensures old(plan) == [] ==> plan == [] && clock == old(clock) && (o.Done? <==> Free(old(gens)))
      ensures old(plan) == [] && o.Done? ==> gens == old(gens) + [Applied]
      ensures old(plan) == [] && !o.Done? ==> o.NotDone? && gens == old(gens) && own == 0
    {
      var e := Next();
      id := 0;
      if !Free(gens) {
        o := if e.fault.DiesBefore? || e.fault.DiesAfter? then Dead else NotDone;
        return;
      }
      if Takes(e.fault) {
        gens := gens + [Applied];
        id, own := |gens|, |gens|;
      }
      o := Told(e.fault);
    }

    /** Commits an applied generation; a commit cut after its decisive rename leaves it published. */
    method ApiCommit(id: nat, ghost r: Record) returns (o: Outcome)
      requires Valid() && journal == Some(r) && r.status.Running? && r.generation == id == own && id != 0 && Sound(r)
      modifies this`plan, this`clock, this`gens
      ensures Valid() && old(clock) <= clock && |gens| == |old(gens)| && Sound(r)
      ensures o.Done? ==> gens[own - 1].Committed?
      ensures old(plan) == [] ==> plan == [] && clock == old(clock) && (o.Done? <==> old(gens)[id - 1].Applied?)
      ensures old(plan) == [] && !o.Done? ==> o.NotDone? && gens == old(gens)
    {
      var e := Next();
      if !gens[id - 1].Applied? {
        o := if e.fault.DiesBefore? || e.fault.DiesAfter? then Dead else NotDone;
        return;
      }
      if Takes(e.fault) {
        gens := gens[id - 1 := Committed];
      } else if e.fault.Half? {
        gens := gens[id - 1 := Published];
      }
      o := Told(e.fault);
    }

    /** Rolls an in-flight generation back; refuses a committed one, and finishes a published one instead. */
    method ApiRollback(id: nat) returns (o: Outcome)
      requires Valid() && id == own && id != 0
      modifies this`plan, this`clock, this`gens
      ensures Valid() && Uncommitting(old(gens), gens) && old(clock) <= clock
      ensures o.Done? ==> gens[own - 1].RolledBack?
      ensures old(plan) == [] ==> plan == [] && clock == old(clock) && !o.Dead? && (o.Done? <==> !IsCommitted(old(gens), own))
    {
      var e := Next();
      if Takes(e.fault) {
        if gens[id - 1].Applied? {
          gens := gens[id - 1 := RolledBack];
        } else if gens[id - 1].Published? {
          gens := gens[id - 1 := Committed];
          return if e.fault.DiesAfter? then Dead else NotDone;
        }
      }
      o := Told(e.fault);
      if o.Done? && gens[id - 1].Committed? {
        o := NotDone;
      }
    }

    predicate FilesAre(r: Record, new_: bool)
      reads this
    {
      if new_ then intent == r.newIntent && config == r.newConfig else intent == r.oldIntent && config == r.oldConfig
    }

    // ---- Recovery ----

    /** Puts both old files back from their verified copies. */
    method RestoreFiles(r: Record) returns (o: Outcome)
      requires Valid() && (journal.Some? ==> journal.value.status.Running?)
      modifies this`plan, this`clock, this`gens, this`intent, this`config
      ensures Valid() && Uncommitting(old(gens), gens) && old(clock) <= clock
      ensures o.Done? ==> FilesAre(r, false)
      ensures old(plan) == [] && savedIntent == Some(r.oldIntent) && savedConfig == Some(r.oldConfig) ==>
        plan == [] && o.Done? && gens == old(gens) && clock == old(clock)
    {
      if savedIntent != Some(r.oldIntent) || savedConfig != Some(r.oldConfig) {
        return NotDone;
      }
      o := WriteIntent(r.oldIntent);
      if !o.Done? {
        return;
      }
      o := WriteConfig(r.oldConfig);
      if o.Done? && !FilesAre(r, false) {
        o := NotDone;
      }
    }

    /** Rolls back the generation, if one is recorded, and restores the files even when that is refused. */
    method RollbackKnown(r: Record) returns (ending: Ending)
      requires Valid() && journal.Some? && journal.value.status.Running? && Sound(r) && r.status.Running?
      requires r.oldIntent == journal.value.oldIntent && r.oldConfig == journal.value.oldConfig
      modifies this
      ensures Valid() && own == old(own) && Uncommitting(old(gens), gens) && old(cleared) <= cleared
      ensures ending.Restored? || ending.Failing? || ending.Died?
      ensures ending.Restored? ==> journal.None? && FilesAre(r, false) && !IsCommitted(gens, own)
      ensures old(plan) == [] ==> plan == [] && FilesAre(r, false)
      ensures old(plan) == [] ==> if IsCommitted(gens, own) then ending.Failing? && journal == old(journal) else ending.Restored?
      ensures ending.Restored? && r.generation != 0 ==> gens[own - 1].RolledBack?
    {
      var rolled := Done;
      if r.generation != 0 {
        rolled := ApiRollback(r.generation);
        if rolled.Dead? {
          return Died;
        }
      }
      var restored := RestoreFiles(r);
      if restored.Dead? {
        return Died;
      }
      if !rolled.Done? || !restored.Done? {
        return Failing;
      }
      var o := WriteRecord(r.(status := Reverted, phase := Ended));
      if !o.Done? {
        return if o.Dead? then Died else Failing;
      }
      o := Cleanup();
      ending := match o case Done => Restored case NotDone => Failing case Dead => Died;
    }

    /** The change is stuck: its generation is committed but not both files are the new ones. */
    ghost predicate Stuck()
      reads this
    {
      && journal.Some? && journal.value.status.Running? && journal.value.generation != 0
      && journal.value.generation <= |gens| && gens[journal.value.generation - 1].Committed?
      && !FilesAre(journal.value, true)
    }

    /** A published generation is taken for an unfinished one, so its files are put back: it becomes stuck. */
    ghost predicate WillStick()
      reads this
    {
      && journal.Some? && journal.value.status.Running? && journal.value.generation != 0
      && journal.value.generation <= |gens| && gens[journal.value.generation - 1].Published?
    }

    /** Already as a committed change should be. */
    ghost predicate Safe()
      reads this
    {
      && journal.Some? && FilesAre(journal.value, true) && own > 0 && own <= |gens| && gens[own - 1].Committed?
      && !journal.value.status.Reverted?
    }

    /** Decides an unfinished change by the status of its generation, or finishes a decided one. */
    method Recover(expiredOnly: bool) returns (ending: Ending)
      requires Valid()
      modifies this
      ensures Valid() && own == old(own) && Uncommitting(old(gens), gens) && old(cleared) <= cleared
      ensures old(journal).None? ==> ending.Nothing? && journal.None? && intent == old(intent) && config == old(config) && gens == old(gens)
      ensures old(Safe()) ==> intent == old(intent) && config == old(config)
      ensures old(Stuck()) ==> Stuck() && journal == old(journal)
      ensures ending.Nothing? ==> journal == old(journal)
      ensures expiredOnly && old(journal).Some? && old(journal).value.status.Running? && old(clock) < old(journal).value.deadline ==>
        ending.Nothing? && intent == old(intent) && config == old(config)
      ensures old(plan) == [] ==> plan == []
      ensures old(plan) == [] && old(journal).Some? && Acts(expiredOnly, old(journal).value, old(clock)) ==>
        (journal.None? <==> !old(Stuck()) && !old(WillStick()))
      ensures old(plan) == [] && old(journal).Some? && old(journal).value.status.Running? && Acts(expiredOnly, old(journal).value, old(clock)) && journal.None? ==>
        DecidedAs(old(journal).value, old(gens), intent, config, gens, ending)
      ensures old(plan) == [] && old(journal).Some? && !old(journal).value.status.Running? ==>
        ending.Finished? && intent == old(intent) && config == old(config) && gens == old(gens)
    {
      if journal.None? {
        return Nothing;
      }
      var r := journal.value;
      if !r.status.Running? {
        var o := Cleanup();
        return match o case Done => Finished case NotDone => Failing case Dead => Died;
      }
      if expiredOnly && clock < r.deadline {
        return Nothing;
      }
      if r.generation == 0 {
        ending := RollbackKnown(r);
        return;
      }
      var e := Next();
      if !e.fault.Fine? {
        return if Told(e.fault).Dead? then Died else Failing;
      }
      if gens[r.generation - 1].Committed? {
        ending := CompleteVerified(r);
      } else {
        ending := RollbackKnown(r);
      }
    }

    method CompleteVerified(r: Record) returns (ending: Ending)
      requires Valid() && journal == Some(r) && r.status.Running? && r.generation != 0 && gens[r.generation - 1].Committed?
      modifies this`plan, this`clock, this`gens, this`journal, this`savedIntent, this`savedConfig, this`cleared
      ensures Valid() && Uncommitting(old(gens), gens) && old(cleared) <= cleared
      ensures ending.Finished? || ending.Failing? || ending.Died?
      ensures ending.Finished? ==> journal.None?
      ensures !FilesAre(r, true) ==> ending.Failing? && journal == old(journal)
      ensures old(plan) == [] ==> plan == [] && gens == old(gens) && (journal.None? <==> FilesAre(r, true)) && (journal.None? ==> ending.Finished?)
    {
      if !FilesAre(r, true) {
        return Failing;
      }
      var o := WriteRecord(r.(status := Complete, phase := Ended));
      if o.Done? {
        o := Cleanup();
      }
      ending := match o case Done => Finished case NotDone => Failing case Dead => Died;
    }

    // ---- The change ----

    /** Copies the old files and publishes the journal; from here on recovery knows about the change. */
    method Prepare(newIntent: string, newConfig: string) returns (o: Outcome, r: Record)
      requires Valid() && journal.None?
      modifies this`plan, this`clock, this`gens, this`journal, this`savedIntent, this`savedConfig, this`own
      ensures Valid() && old(clock) <= clock && Uncommitting(old(gens), gens)
      ensures r == Record(Running, Prepared, 0, intent, config, newIntent, newConfig, r.started, r.started + TIMEOUT)
      ensures o.Done? ==> journal == Some(r) && own == 0
      ensures journal.None? || journal == Some(r)
      ensures old(plan) == [] ==> plan == [] && o.Done? && gens == old(gens) && clock == old(clock)
    {
      r := Record(Running, Prepared, 0, intent, config, newIntent, newConfig, clock, clock + TIMEOUT);
      var e := Next();
      if Takes(e.fault) {
        savedIntent := Some(intent);
      }
      o := Told(e.fault);
      if !o.Done? {
        return;
      }
      e := Next();
      if Takes(e.fault) {
        savedConfig := Some(config);
      }
      o := Told(e.fault);
      if !o.Done? {
        return;
      }
      own := 0;
      r := r.(started := clock, deadline := clock + TIMEOUT);
      o := WriteRecord(r);
    }

    /** Publishes both new files, checks them, and records that. */
    method PublishFiles(r: Record) returns (o: Outcome)
      requires Valid() && journal == Some(r) && r.status.Running? && r.generation == 0 && own == 0
      modifies this`plan, this`clock, this`gens, this`journal, this`intent, this`config
      ensures Valid() && old(clock) <= clock && Uncommitting(old(gens), gens)
      ensures journal == Some(r) || journal == Some(r.(phase := FilesPublished))
      ensures o.Done? ==> FilesAre(r, true) && journal == Some(r.(phase := FilesPublished))
      ensures old(plan) == [] ==> plan == [] && o.Done? && gens == old(gens) && clock == old(clock)
    {
      o := WriteIntent(r.newIntent);
      if !o.Done? {
        return;
      }
      o := WriteConfig(r.newConfig);
      if !o.Done? {
        return;
      }
      if !FilesAre(r, true) {
        return NotDone;
      }
      o := WriteRecord(r.(phase := FilesPublished));
    }

    /** The tunnel check: a call that changes nothing here. */
    method CheckTunnel() returns (o: Outcome)
      requires Valid()
      modifies this`plan, this`clock, this`gens
      ensures Valid() && Uncommitting(old(gens), gens) && old(clock) <= clock
      ensures old(plan) == [] ==> plan == [] && o.Done? && gens == old(gens) && clock == old(clock)
    {
      var e := Next();
      o := Told(e.fault);
    }

    /** Applies the new policy safely, records the generation, checks the tunnel, and commits. */
    method ApplyAndCommit(r: Record) returns (o: Outcome, k: Record)
      requires Valid() && journal == Some(r) && r.status.Running? && r.generation == 0 && own == 0 && FilesAre(r, true)
      modifies this`plan, this`clock, this`gens, this`journal, this`own
      ensures Valid() && old(clock) <= clock && Sound(k) && k.status.Running?
      ensures journal.Some? && journal.value.status.Running?
      ensures k == r.(phase := k.phase, generation := k.generation)
      ensures journal == Some(r.(phase := journal.value.phase, generation := journal.value.generation))
      ensures o.Done? ==> journal == Some(k) && own > 0 && gens[own - 1].Committed? && k.generation == own
      ensures old(plan) == [] ==> plan == [] && clock == old(clock) && (o.Done? <==> Free(old(gens)))
      ensures old(plan) == [] && !o.Done? ==> o.NotDone? && !IsCommitted(gens, own)
    {
      k := r;
      var id: nat;
      o, id := ApiApply();
      if !o.Done? {
        return;
      }
      k := k.(phase := PhaseApplied, generation := id);
      o := WriteRecord(k);
      if !o.Done? {
        return;
      }
      o := CheckTunnel();
      if !o.Done? {
        return;
      }
      o := ApiCommit(id, k);
    }

    /** Marks the change complete and clears it. */
    method Finish(r: Record) returns (o: Outcome)
      requires Valid() && journal == Some(r) && r.status.Running? && FilesAre(r, true) && own > 0 && gens[own - 1].Committed?
      modifies this`plan, this`clock, this`gens, this`journal, this`savedIntent, this`savedConfig, this`cleared
      ensures Valid() && Uncommitting(old(gens), gens) && old(cleared) <= cleared
      ensures o.Done? ==> journal.None?
      ensures journal.None? || Safe()
      ensures old(plan) == [] ==> plan == [] && o.Done?
    {
      o := WriteRecord(r.(status := Complete, phase := Ended));
      if o.Done? {
        o := Cleanup();
      }
    }

    /** One whole change, after whatever an earlier one left behind has been recovered. */
    method Run(newIntent: string, newConfig: string) returns (ending: Ending)
      requires Valid()
      modifies this
      ensures Valid() && old(cleared) <= cleared
      ensures ending.Changed? ==> intent == newIntent && config == newConfig
      ensures ending.Changed? && (old(intent) != newIntent || old(config) != newConfig) && old(journal).None? ==> IsCommitted(gens, own)
      ensures ending.Restored? ==> journal.None?
      ensures old(plan) == [] && old(journal).None? ==> journal.None? && plan == []
      ensures old(plan) == [] && old(journal).None? && Free(old(gens)) ==> ending.Changed?
      ensures old(plan) == [] && old(journal).None? && !ending.Changed? ==> intent == old(intent) && config == old(config)
    {
      var earlier := Recover(true);
      if earlier.Died? || earlier.Failing? {
        return earlier;
      }
      if journal.Some? {
        return Busy;
      }
      if intent == newIntent && config == newConfig {
        return Changed;
      }
      ghost var before := gens;
      var o, r := Prepare(newIntent, newConfig);
      if !o.Done? {
        return if o.Dead? then Died else Failing;
      }
      ending := RunPrepared(r);
    }

    method RunPrepared(r: Record) returns (ending: Ending)
      requires Valid() && journal == Some(r) && r.status.Running? && r.generation == 0 && own == 0 && r.phase.Prepared?
      modifies this
      ensures Valid() && old(cleared) <= cleared
      ensures ending.Changed? ==> FilesAre(r, true) && IsCommitted(gens, own)
      ensures ending.Restored? ==> journal.None?
      ensures old(plan) == [] ==> plan == [] && journal.None? && (if Free(old(gens)) then ending.Changed? else FilesAre(r, false) && !ending.Changed?)
    {
      var o := PublishFiles(r);
      var k := r;
      if o.Done? {
        k := r.(phase := FilesPublished);
        o, k := ApplyAndCommit(k);
      }
      if o.Dead? {
        return Died;
      }
      if o.NotDone? {
        ending := RollbackKnown(k);
        return;
      }
      o := Finish(k);
      if o.NotDone? {
        // The commit took effect; only the clearing is left, and it is retried at once.
        var again := Recover(false);
        return if again.Died? then Died else if again.Failing? then Failing else Changed;
      }
      ending := if o.Dead? then Died else Changed;
    }

    /** Any sequence of changes and recoveries, with any faults, clears only settled changes. */
    method Serve(commands: seq<Command>)
      requires Valid()
      modifies this
      ensures Valid() && old(cleared) <= cleared
      ensures forall i :: 0 <= i < |cleared| ==> Settled(cleared[i])
    {
      for i := 0 to |commands|
        invariant Valid() && old(cleared) <= cleared
      {
        match commands[i] {
          case DoChange(newIntent, newConfig) => var _ := Run(newIntent, newConfig);
          case DoRecover(expiredOnly) => var _ := Recover(expiredOnly);
        }
      }
    }
  }

  datatype Command = DoChange(newIntent: string, newConfig: string) | DoRecover(expiredOnly: bool)
}
