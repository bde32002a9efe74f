/**
 The durable state of the firewall's generation protocol and the atomic writes that change it:
 generation rows, immutable script and snapshot files, the enforcement pointer file, and the
 kernel tables. A digest is modelled by the value it digests, so that equal digests mean equal
 contents.
 */
module Generations {
  import opened Wrappers

  /** What a row, a pointer and an immutable snapshot record about one generation. */
  datatype Snapshot = Snapshot(generation: nat, script: string, previous: Option<Pointer>, boot: nat)

  datatype Pointer = Pointer(generation: nat, snapshotSum: Snapshot, policySum: string)

  datatype Status = Pending | Applied | Prepared | Committed | RolledBack

  /** A row of the generation table; its id is its position, counting from 1. */
  datatype Row = Row(
    checksum: string,
    sum: Snapshot,
    boot: nat,
    status: Status,
    deadline: Option<int>,
    previous: Option<nat>,
    prior: Option<Pointer>)

  /** A script that an nft transaction can load: a generation's, or the emergency default deny. */
  datatype Loaded = Generation(text: string) | EmergencyDeny

  datatype Print = PrintOf(loaded: Loaded) | OtherPrint(n: nat)

  const OWNED_TABLES: nat := 3

  type TableCount = n: nat | 1 <= n <= OWNED_TABLES witness 1

  /** The product-named tables in the kernel: none, as a script of ours left them, or somebody else's. */
  datatype Kernel =
    | Bare
    | Ours(loaded: Loaded)
    | Altered(tables: TableCount, markers: bool, mark: Print)
  {
    function Existing(): nat {
      match this
      case Bare => 0
      case Ours(_) => OWNED_TABLES
      case Altered(n, _, _) => n
    }

    /** The structural marker check; the emergency script lacks the provenance markers. */
    predicate Intact() {
      match this
      case Bare => false
      case Ours(l) => l.Generation?
      case Altered(n, markers, _) => n == OWNED_TABLES && markers
    }

    /** Listing a missing table is an error, so only a full set of tables has a fingerprint. */
    function Fingerprint(): Option<Print> {
      match this
      case Bare => None
      case Ours(l) => Some(PrintOf(l))
      case Altered(n, _, p) => if n == OWNED_TABLES then Some(p) else None
    }
  }

  datatype World = World(
    rows: seq<Row>,
    observed: map<nat, Print>,
    scripts: map<nat, string>,
    snapshots: map<nat, Snapshot>,
    pointer: Option<Pointer>,
    kernel: Kernel,
    clock: int,
    boot: nat)

  // ---- Queries ----

  predicate InFlight(s: Status) {
    s.Pending? || s.Applied? || s.Prepared?
  }

  function PointerTo(s: Snapshot): Pointer {
    Pointer(s.generation, s, s.script)
  }

  /** The highest committed id that is at most k, or 0. */
  function LatestBelow(rows: seq<Row>, k: nat): (id: nat)
    requires k <= |rows|
    ensures id <= k
    ensures id != 0 ==> rows[id - 1].status.Committed?
    ensures forall j :: id <= j < k ==> !rows[j].status.Committed?
  {
    if k == 0 then 0 else if rows[k - 1].status.Committed? then k else LatestBelow(rows, k - 1)
  }

  function LastKnownGood(rows: seq<Row>): nat {
    LatestBelow(rows, |rows|)
  }

  /** The pointer to the latest committed row up to k. */
  function PointerAt(rows: seq<Row>, k: nat): Option<Pointer>
    requires k <= |rows|
  {
    var id := LatestBelow(rows, k);
    if id == 0 then None else Some(PointerTo(rows[id - 1].sum))
  }

  /** The highest in-flight id that is at most k, or 0. */
  function PendingBelow(rows: seq<Row>, k: nat): (id: nat)
    requires k <= |rows|
    ensures id <= k
    ensures id != 0 ==> InFlight(rows[id - 1].status)
    ensures forall j :: id <= j < k ==> !InFlight(rows[j].status)
  {
    if k == 0 then 0 else if InFlight(rows[k - 1].status) then k else PendingBelow(rows, k - 1)
  }

  function PendingId(rows: seq<Row>): nat {
    PendingBelow(rows, |rows|)
  }

  function IdOf(p: Option<Pointer>): Option<nat> {
    if p.None? then None else Some(p.value.generation)
  }

  // ---- The invariant ----

  ghost predicate RowOk(w: World, id: nat)
    requires 1 <= id <= |w.rows|
  {
    var r := w.rows[id - 1];
    && id in w.snapshots && w.snapshots[id] == r.sum
    && id in w.scripts && w.scripts[id] == r.checksum
    && r.sum.generation == id && r.sum.script == r.checksum && r.sum.boot == r.boot <= w.boot
    && r.sum.previous == PointerAt(w.rows, id - 1)
    && r.previous == IdOf(r.sum.previous)
    && (r.status.Pending? ==> id !in w.observed)
    && (id in w.observed ==> w.observed[id] == PrintOf(Generation(r.checksum)))
    && (r.status.Prepared? || r.status.Committed? ==> id in w.observed)
    && (r.status.Prepared? ==> r.prior == r.sum.previous)
  }

  /** The candidate's pointer rename has happened but its row is not yet finalized. */
  predicate Published(w: World) {
    && |w.rows| > 0
    && w.rows[|w.rows| - 1].status.Prepared?
    && w.pointer == Some(PointerTo(w.rows[|w.rows| - 1].sum))
  }

  /**
   What every write keeps: only the newest generation is in flight; every row's snapshot names the
   latest generation committed before it, so committed generations form one chain; and the pointer
   names the end of that chain or the newest generation's own published snapshot.
   */
  ghost predicate Inv(w: World) {
    && (forall id :: 1 <= id <= |w.rows| ==> RowOk(w, id))
    && (forall k :: 0 <= k < |w.rows| - 1 ==> !InFlight(w.rows[k].status))
    && (forall id :: id in w.observed ==> 1 <= id <= |w.rows|)
    && (w.pointer == PointerAt(w.rows, |w.rows|) || Published(w))
  }

  // ---- Atomic writes ----

  datatype Action =
    | WriteScript(id: nat, text: string)
    | WriteSnapshot(snapshot: Snapshot)
    | InsertRow(id: nat, deadline: Option<int>)
    | MarkApplied(id: nat)
    | RecordHash(id: nat)
    | PrepareCommit(id: nat)
    | Publish(id: nat)
    | Finalize(id: nat)
    | MarkRolledBack(id: nat)
    | Install(loaded: Loaded)
    | Destroy
    | Elapse(time: nat)
    | Reboot(boot: nat)
    | Interfere(kernel: Kernel)

  predicate Newest(w: World, id: nat) {
    id == |w.rows| && id > 0
  }

  /** Evidence that the product-named tables are the product's own. */
  predicate OwnsTables(w: World) {
    || LastKnownGood(w.rows) != 0
    || (|w.rows| > 0 && (w.rows[|w.rows| - 1].status.Applied? || w.rows[|w.rows| - 1].status.Prepared?))
  }

  /** The kernel runs what it ran before the newest generation, as far as the fingerprint can tell. */
  predicate Restored(w: World)
    requires |w.rows| > 0
  {
    var p := w.rows[|w.rows| - 1].sum.previous;
    if p.None? then w.kernel == Bare
    else w.kernel.Fingerprint() == Some(PrintOf(Generation(p.value.policySum)))
  }

  predicate MayLoad(w: World, l: Loaded) {
    var good := LastKnownGood(w.rows);
    match l
    case EmergencyDeny => OwnsTables(w)
    case Generation(t) =>
      || (good != 0 && t == w.rows[good - 1].checksum)
      || (|w.rows| > 0 && InFlight(w.rows[|w.rows| - 1].status) && t == w.rows[|w.rows| - 1].checksum)
  }

  /** The order rules: when each write may happen. */
  predicate Enabled(w: World, a: Action) {
    match a
    case WriteScript(id, _) => id !in w.scripts
    case WriteSnapshot(s) => s.generation !in w.snapshots
    case InsertRow(id, _) =>
      && id == |w.rows| + 1 && PendingId(w.rows) == 0
      && id in w.scripts && id in w.snapshots
      && w.snapshots[id].generation == id && w.snapshots[id].script == w.scripts[id] && w.snapshots[id].boot == w.boot
      && w.snapshots[id].previous == PointerAt(w.rows, |w.rows|)
    case MarkApplied(id) =>
      && Newest(w, id) && w.rows[id - 1].status.Pending?
      && w.kernel == Ours(Generation(w.rows[id - 1].checksum))
    case RecordHash(id) =>
      && 1 <= id <= |w.rows|
      && !w.rows[id - 1].status.Pending? && !w.rows[id - 1].status.RolledBack?
      && w.kernel == Ours(Generation(w.rows[id - 1].checksum))
    case PrepareCommit(id) =>
      && Newest(w, id) && w.rows[id - 1].status.Applied? && id in w.observed
      && w.pointer == w.rows[id - 1].sum.previous
    case Publish(id) =>
      && Newest(w, id) && w.rows[id - 1].status.Prepared?
      && w.pointer == w.rows[id - 1].sum.previous
      && (w.rows[id - 1].deadline.Some? ==> w.clock < w.rows[id - 1].deadline.value)
    case Finalize(id) => Newest(w, id) && Published(w)
    case MarkRolledBack(id) =>
      && Newest(w, id) && InFlight(w.rows[id - 1].status) && !Published(w)
      && (w.rows[id - 1].status.Pending? || Restored(w))
    case Install(l) => (w.kernel.Altered? ==> OwnsTables(w)) && MayLoad(w, l)
    case Destroy => (w.kernel.Altered? ==> OwnsTables(w)) && LastKnownGood(w.rows) == 0
    case Elapse(_) => true
    case Reboot(b) => w.boot < b
    case Interfere(_) => true
  }

  function SetRow(w: World, id: nat, r: Row): World
    requires 1 <= id <= |w.rows|
  {
    w.(rows := w.rows[id - 1 := r])
  }

  function Perform(w: World, a: Action): World
    requires Enabled(w, a)
  {
    match a
    case WriteScript(id, text) => w.(scripts := w.scripts[id := text])
    case WriteSnapshot(s) => w.(snapshots := w.snapshots[s.generation := s])
    case InsertRow(id, deadline) =>
      var s := w.snapshots[id];
      w.(rows := w.rows + [Row(w.scripts[id], s, s.boot, Pending, deadline, IdOf(s.previous), None)])
    case MarkApplied(id) => SetRow(w, id, w.rows[id - 1].(status := Applied))
    case RecordHash(id) => w.(observed := w.observed[id := PrintOf(w.kernel.loaded)])
    case PrepareCommit(id) =>
      SetRow(w, id, w.rows[id - 1].(status := Prepared, prior := w.rows[id - 1].sum.previous))
    case Publish(id) => w.(pointer := Some(PointerTo(w.rows[id - 1].sum)))
    case Finalize(id) => SetRow(w, id, w.rows[id - 1].(status := Committed, deadline := None))
    case MarkRolledBack(id) => SetRow(w, id, w.rows[id - 1].(status := RolledBack))
    case Install(l) => w.(kernel := Ours(l))
    case Destroy => w.(kernel := Bare)
    case Elapse(t) => w.(clock := w.clock + t)
    case Reboot(b) => w.(boot := b, kernel := Bare)
    case Interfere(k) => w.(kernel := k)
  }

  // ---- Every write keeps the invariant ----

  /** Equal prefixes have equal latest committed rows. */
  lemma {:induction false} LatestFrame(r: seq<Row>, s: seq<Row>, k: nat)
    requires k <= |r| && k <= |s|
    requires forall j :: 0 <= j < k ==> r[j] == s[j]
    ensures LatestBelow(r, k) == LatestBelow(s, k)
    ensures PointerAt(r, k) == PointerAt(s, k)
  {
    if k > 0 {
      LatestFrame(r, s, k - 1);
    }
  }

  lemma RowsAgree(w: World, v: World, k: nat)
    requires k <= |w.rows| && k <= |v.rows|
    requires forall j :: 0 <= j < k ==> w.rows[j] == v.rows[j]
    requires forall id :: 1 <= id <= k ==> RowOk(w, id)
    requires v.observed == w.observed && w.boot <= v.boot
    requires forall id :: id in w.snapshots ==> id in v.snapshots && v.snapshots[id] == w.snapshots[id]
    requires forall id :: id in w.scripts ==> id in v.scripts && v.scripts[id] == w.scripts[id]
    ensures forall id :: 1 <= id <= k ==> RowOk(v, id)
  {
    forall id | 1 <= id <= k ensures RowOk(v, id) {
      LatestFrame(w.rows, v.rows, id - 1);
      assert RowOk(w, id);
    }
  }

  /** In flight means newest. */
  lemma PendingIsNewest(w: World)
    requires Inv(w)
    ensures PendingId(w.rows) == 0 || PendingId(w.rows) == |w.rows|
    ensures |w.rows| > 0 && InFlight(w.rows[|w.rows| - 1].status) ==> PendingId(w.rows) == |w.rows|
    ensures PendingId(w.rows) == |w.rows| ==> LastKnownGood(w.rows) == LatestBelow(w.rows, if |w.rows| == 0 then 0 else |w.rows| - 1)
  {
  }

  /** A published candidate's pointer differs from the pointer to its predecessor. */
  lemma OwnPointerIsNew(w: World)
    requires Inv(w) && |w.rows| > 0
    ensures w.rows[|w.rows| - 1].sum.previous != Some(PointerTo(w.rows[|w.rows| - 1].sum))
  {
    assert RowOk(w, |w.rows|);
    var l := LatestBelow(w.rows, |w.rows| - 1);
    if l != 0 {
      assert RowOk(w, l);
    }
  }

  /** Writes that leave the rows and the hashes alone, and only add files. */
  lemma QuietKeepsInv(w: World, v: World)
    requires Inv(w)
    requires v.rows == w.rows && v.observed == w.observed && w.boot <= v.boot
    requires v.pointer == w.pointer || Published(v)
    requires forall id :: id in w.snapshots ==> id in v.snapshots && v.snapshots[id] == w.snapshots[id]
    requires forall id :: id in w.scripts ==> id in v.scripts && v.scripts[id] == w.scripts[id]
    ensures Inv(v)
  {
    RowsAgree(w, v, |w.rows|);
  }

  lemma InsertKeepsInv(w: World, id: nat, deadline: Option<int>)
    requires Inv(w) && Enabled(w, InsertRow(id, deadline))
    ensures Inv(Perform(w, InsertRow(id, deadline)))
  {
    var v := Perform(w, InsertRow(id, deadline));
    var n := |w.rows|;
    RowsAgree(w, v, n);
    LatestFrame(w.rows, v.rows, n);
    assert RowOk(v, id);
    assert !Published(w);
    assert v.pointer == PointerAt(v.rows, n) == PointerAt(v.rows, n + 1);
  }

  lemma HashKeepsInv(w: World, id: nat)
    requires Inv(w) && Enabled(w, RecordHash(id))
    ensures Inv(Perform(w, RecordHash(id)))
  {
    var v := Perform(w, RecordHash(id));
    forall j | 1 <= j <= |w.rows| ensures RowOk(v, j) {
      assert RowOk(w, j);
    }
    assert Published(w) <==> Published(v);
  }

  /** What may replace the newest row: the same generation with a later status. */
  ghost predicate Advances(w: World, r: Row)
    requires |w.rows| > 0
  {
    var q := w.rows[|w.rows| - 1];
    && InFlight(q.status) && !r.status.Pending?
    && r.checksum == q.checksum && r.sum == q.sum && r.boot == q.boot && r.previous == q.previous
    && (r.status.Prepared? || r.status.Committed? ==> |w.rows| in w.observed)
    && (r.status.Prepared? ==> r.prior == r.sum.previous)
    && (r.status.Committed? <==> Published(w))
  }

  /** A status change of the newest row leaves the older rows and the chain below it alone. */
  lemma NewestRowsOk(w: World, r: Row)
    requires Inv(w) && |w.rows| > 0 && Advances(w, r)
    ensures forall id :: 1 <= id <= |w.rows| ==> RowOk(SetRow(w, |w.rows|, r), id)
  {
    var n := |w.rows|;
    var v := SetRow(w, n, r);
    RowsAgree(w, v, n - 1);
    LatestFrame(w.rows, v.rows, n - 1);
    assert RowOk(w, n);
    assert RowOk(v, n);
  }

  lemma NewestPointerOk(w: World, r: Row)
    requires Inv(w) && |w.rows| > 0 && Advances(w, r)
    ensures var v := SetRow(w, |w.rows|, r);
      v.pointer == PointerAt(v.rows, |v.rows|) || Published(v)
  {
    var n := |w.rows|;
    var v := SetRow(w, n, r);
    LatestFrame(w.rows, v.rows, n - 1);
    assert LatestBelow(w.rows, n) == LatestBelow(w.rows, n - 1);
    assert LatestBelow(v.rows, n) == if r.status.Committed? then n else LatestBelow(v.rows, n - 1);
  }

  lemma NewestChangeKeepsInv(w: World, r: Row)
    requires Inv(w) && |w.rows| > 0 && Advances(w, r)
    ensures Inv(SetRow(w, |w.rows|, r))
  {
    NewestRowsOk(w, r);
    NewestPointerOk(w, r);
  }

  lemma StepKeepsInv(w: World, a: Action)
    requires Inv(w) && Enabled(w, a)
    ensures Inv(Perform(w, a))
  {
    assert |w.rows| > 0 ==> RowOk(w, |w.rows|);
    match a
    case InsertRow(id, deadline) => InsertKeepsInv(w, id, deadline);
    case RecordHash(id) => HashKeepsInv(w, id);
    case MarkApplied(id) => NewestChangeKeepsInv(w, Perform(w, a).rows[id - 1]);
    case PrepareCommit(id) => NewestChangeKeepsInv(w, Perform(w, a).rows[id - 1]);
    case Finalize(id) => NewestChangeKeepsInv(w, Perform(w, a).rows[id - 1]);
    case MarkRolledBack(id) => NewestChangeKeepsInv(w, Perform(w, a).rows[id - 1]);
    case _ => QuietKeepsInv(w, Perform(w, a));
  }

  // ---- Runs ----

  /** Every write of the log is allowed where it happens. */
  ghost predicate Allowed(w: World, log: seq<Action>)
    decreases |log|
  {
    log == [] || (Enabled(w, log[0]) && Allowed(Perform(w, log[0]), log[1..]))
  }

  ghost function Replay(w: World, log: seq<Action>): World
    requires Allowed(w, log)
    decreases |log|
  {
    if log == [] then w else Replay(Perform(w, log[0]), log[1..])
  }

  lemma {:induction false} ReplayAppend(w: World, log: seq<Action>, a: Action)
    requires Allowed(w, log) && Enabled(Replay(w, log), a)
    ensures Allowed(w, log + [a]) && Replay(w, log + [a]) == Perform(Replay(w, log), a)
    decreases |log|
  {
    if log == [] {
      assert (log + [a])[1..] == [];
    } else {
      assert (log + [a])[1..] == log[1..] + [a];
      ReplayAppend(Perform(w, log[0]), log[1..], a);
    }
  }

  lemma {:induction false} ReplayPrefix(w: World, log: seq<Action>, k: nat)
    requires Allowed(w, log) && k <= |log|
    ensures Allowed(w, log[..k])
    ensures Allowed(Replay(w, log[..k]), log[k..])
    ensures Replay(Replay(w, log[..k]), log[k..]) == Replay(w, log)
    decreases k
  {
    if k > 0 {
      assert log[..k][1..] == log[1..][..k - 1];
      assert log[1..][k - 1..] == log[k..];
      ReplayPrefix(Perform(w, log[0]), log[1..], k - 1);
    } else {
      assert log[k..] == log;
    }
  }

  /** The invariant holds after every run, so it holds wherever a crash cuts a run short. */
  lemma {:induction false} RunKeepsInv(w: World, log: seq<Action>)
    requires Inv(w) && Allowed(w, log)
    ensures Inv(Replay(w, log))
    decreases |log|
  {
    if log != [] {
      StepKeepsInv(w, log[0]);
      RunKeepsInv(Perform(w, log[0]), log[1..]);
    }
  }
}
