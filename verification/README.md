# NFTFW verification model

A Dafny model of the parts of NFTFW whose correctness depends on write order, on many functions
together, or on every possible input, with proofs of what those parts promise.

* **The generation protocol** (`Generations`, `CommitMachine`, `GenerationManager`,
  `GenerationHistories`). Generation rows, immutable script and snapshot files, the enforcement
  pointer file and the kernel tables are separate stores. `Generations` has the atomic writes with the
  conditions under which each may happen, and the invariant they keep. `CommitMachine` shows that they
  refine a machine with a list of kept generations, a set of dropped ones and at most one open
  candidate, in which the pointer rename is the whole of a commit. `GenerationManager` is the
  controller: every device call takes the next event of a fault plan and may work, be refused, be lost
  after taking effect, or be the last thing the process does. Its ghost log is a run of the protocol.
  `GenerationHistories` covers any sequence of requests, process deaths, reboots and outside writes.
* **Foreign conntrack-mark use** (`MarkBits`, `MarkScan`, `MarkFaults`, `MarkMeaning`,
  `MarkIndependence`). The scanner over decoded nft expressions, which faults it reports, which texts are
  constants and which expressions are clean, said without the scanner, and what a clean verdict means for
  an arbitrary interpretation of all operators.
* **The policy compiler** (`Texts`, `ProvenanceIds`, `PolicyModel`, `PacketRules`, `PolicyCompiler`,
  `PolicyMeaning`, `TrafficGuarantees`, `TrafficLaws`). Validated configurations, the three base chains as typed
  rules, a first-verdict evaluator over packets and a connection mark, the exact meaning of each chain in
  terms of the configuration, the kill switch, and the life of a mark over a connection.
* **The compiled script** (`Numerals`, `CompiledScript`, `ScriptLines`, `ScriptWords`, `ScriptClauses`,
  `ScriptAcceptance`, `ScriptLexer`, `ScriptReader`, `ScriptMeaning`, `ScriptExample`). The text those
  rules are written as, with the sets, the NAT table and the ip6 table; why the ownership validator accepts
  all of it; and a lexer and a reader, defined on the text alone, for which each base chain means exactly
  the compiled rules.
* **The permanent identity ledger** (`Ledger`), **the managed setup transaction**
  (`SetupTransaction`), **the managed two-file change** (`ManagedChange`), **the script ownership
  validator** (`ScriptGuard`, and what it refuses in `ScriptRefusals`), **the Docker bridge projection**
  (`DockerProjection`, and which observations it accepts in `DockerMeaning`) and **the ordering of claim
  restoration** (`ClaimRestore`).

A digest is modelled by the value it digests, so equal digests mean equal contents. Each durable write
is one atomic step. The global mutation lock is the absence of interleaving between commands; a crash
may fall between any two steps.

## Findings

Where the code does not do what its comments or messages suggest, the model follows the code:

* A crash between the snapshot file and the row of a save leaves a file that nothing removes
  (internal/state/store.go:491-502, internal/state/active.go:479-500). Once the boot id or the
  predecessor differs, no row with that id can ever be written, and every later apply is refused,
  whatever else is done (`GenerationHistories.OrphanBlocksEveryApply`,
  `GenerationHistories.OrphanNeverGetsRow`, `GenerationHistories.OrphanExample`). A calm apply succeeds
  exactly when its guards pass and the files agree (`GenerationManager.Manager.Apply`).
* A failed ledger call can have changed the ledger: exactly when only the sync after the commit failed
  (internal/provenance/ledger.go:285-288; `ProvenanceLedger.Ledger.Reserve`,
  `ProvenanceLedger.Ledger.MergeFrom`).
* The setup's committed-generation inspection also asks whether the policy is enforced right now
  (internal/setup/system.go:1804-1816), so it can answer no for a committed generation, which is then
  rolled back; it happens exactly when the journal does not yet say committed and enforcement is not
  confirmed (`SetupTransaction.CommittedIsSafeWhenEnforced`, `SetupTransaction.Setup.RollbackCommand`).
* The expression scanner's comment says a later malformed expression is never hidden by an earlier
  collision (internal/nft/provenance_collision.go:321-323). It is hidden beside an opaque statement, a
  mark descriptor, or a bare read in a mask, where the scan stops (`MarkFaults.FaultsGoUnreported`). An
  expression is reported as malformed if and only if a path of scanned places leads to something ill
  formed (`MarkFaults.ReportedExactly`).
* A managed change whose generation is committed while its old files were put back can never be cleared
  by recovery (cmd/nftfw/managed_recovery.go:116-138); that is the only way to get stuck
  (`ManagedChange.Change.Recover`).

## Model

| member | source | states |
|---|---|---|
| Generations.StepKeepsInv | internal/reconcile/manager.go:94-209 | every durable write, wherever its order rule allows it, keeps: only the newest generation in flight, each row agreeing with its immutable files, committed generations chained by predecessor, and the enforcement pointer at the end of that chain or at the newest prepared generation |
| Generations.RunKeepsInv | internal/reconcile/recovery.go:93-138 | the same after every run of writes, hence wherever a crash cuts one |
| Generations.PendingIsNewest | internal/reconcile/manager.go:676-685 | at most one generation is in flight, and it is the newest |
| CommitMachine.RunRefines | internal/reconcile/manager.go:331-397 | all stores together refine a machine with a kept list, a dropped set and one open candidate, over every run |
| CommitMachine.CommitIsAtomic | internal/reconcile/manager.go:331-397 | a generation out of flight is committed if and only if its pointer rename happened, and rolled back if and only if it did not, in every run with crashes anywhere |
| CommitMachine.DecisionsAreFinal | internal/reconcile/manager.go:437-452 | no later run changes a committed or rolled-back row, its snapshot, or the order of kept generations |
| CommitMachine.CommittedChain | internal/state/store.go:466-534 | committed generations ascend and each names exactly the committed one before it |
| CommitMachine.PointerIsLastKept | internal/state/active.go:293-307 | the enforcement pointer is always that of the last kept generation, or absent if there is none |
| CommitMachine.PointerOnlyAdvances | internal/state/active.go:293-307 | over every run the enforcement pointer never disappears and its generation never decreases |
| CommitMachine.PublishedBeforeDeadline | internal/reconcile/manager.go:361-391 | no safe-apply generation is published at or after the deadline it was saved with |
| CommitMachine.ForeignTablesSurvive | internal/nft/backend.go:147-162 | product-named tables from before the first success survive every run without reboots and outside writers |
| GenerationManager.SnapshotsAlwaysVerify | internal/reconcile/recovery.go:232-269 | in every reachable world every row agrees with its files and predecessor, so the snapshot refusals cannot occur |
| GenerationManager.PredecessorIsCommitted | internal/reconcile/recovery.go:158-190 | an in-flight generation's predecessor is the latest committed one, has a recorded hash, and is where the enforcement pointer still is unless the candidate is published |
| GenerationManager.CommittedPointer | internal/reconcile/recovery.go:57-80 | with nothing in flight the enforcement pointer is the latest committed row's, whose hash is on record |
| GenerationManager.SettledIsReady | internal/reconcile/recovery.go:74-117 | deciding the in-flight generation with its survivor verified in the kernel is readiness: committed row, nothing in flight, matching fingerprint |
| GenerationManager.Manager.Write | internal/state/store.go:466-640 | one durable write: done, refused, lost after its effect, or cut before or after it by death, always within the protocol |
| GenerationManager.Manager.Load | internal/nft/backend.go:182-221 | the kernel changes only to the loaded script; a first use refuses to replace any existing table without attempting it |
| GenerationManager.Manager.DestroyOwned | internal/nft/backend.go:254-285 | removes product-named tables only where ownership is established |
| GenerationManager.Manager.Apply | internal/reconcile/manager.go:94-215 | success is exactly a newest row saved, in force in the kernel with its hash, and committed unless safe; a failure under any faults leaves rows and kernel untouched, or the candidate as newest row, rolled back only if the kernel was never touched or what ran before is back; calm outcome decided exactly by guards, files and id; never an ambiguous refusal |
| GenerationManager.GuardsMean | internal/reconcile/manager.go:100-143 | in fields: an apply is refused for a generation in flight, or for foreign tables when everything before was rolled back, and for nothing else |
| GenerationManager.ApplyMeans | internal/reconcile/manager.go:94-215 | in fields: the condition on rows, kernel, id and files under which an apply without faults succeeds, and only then |
| GenerationManager.Manager.Launch | internal/reconcile/manager.go:144-215 | from saved candidate to answer; a safe apply in which one device call fails, and nothing else, is rolled back in the same call, unless it was the first and tables are left whose origin is not known |
| GenerationManager.Manager.Save | internal/state/store.go:466-534 | three writes leave the candidate as a pending row naming the latest committed generation, or a known refusal; under any faults a row is added only if no differing file is in the way |
| GenerationManager.Manager.RecoverPostApply | internal/reconcile/manager.go:216-224 | a candidate that reached the kernel ends rolled back only with what ran before it back in the kernel, and without faults does end so |
| GenerationManager.Manager.RecoverFailedLoad | internal/reconcile/manager.go:226-238 | after an attempt with an unknown result the candidate ends rolled back only with the kernel restored, and without faults does; a first apply stays in flight, rows and kernel untouched, while tables exist; without an attempt the kernel is untouched |
| GenerationManager.Manager.Commit | internal/reconcile/manager.go:284-329 | success is exactly the published and finalized world; without faults an applied newest generation is committed if and only if it has no deadline or the clock is before it, and its recorded hash is the kernel fingerprint; otherwise it is rolled back, as expired if and only if the deadline has come |
| GenerationManager.CommitMeans | internal/reconcile/manager.go:284-329 | the same in row, clock and kernel fields: each answer if and only if its comparison, and the whole world each leaves |
| GenerationManager.CommitRefusedMeans | internal/reconcile/manager.go:284-309 | a generation that is not applied and newest is refused and nothing changes |
| GenerationManager.Manager.CommitLocked | internal/reconcile/manager.go:331-397 | prepare, last deadline read, rename, finalize: success is exactly the committed world, nothing kept is ever lost, and the last deadline read is before the rename |
| GenerationManager.CommitLockedMeans | internal/reconcile/manager.go:376-397 | in fields: without faults it commits exactly while the clock has not reached the deadline, and past it rolls back to the predecessor or to bare tables |
| GenerationManager.Manager.RollbackLocked | internal/reconcile/manager.go:414-518 | success is exactly the predecessor or bare tables back in the kernel and the row rolled back; under any faults the row is not marked before that; a published generation is finalized instead; calm outcome exact; no ambiguous refusal |
| GenerationManager.Manager.RollbackExpired | internal/reconcile/manager.go:519-563 | the timer acts exactly on an in-flight generation that is prepared, past its deadline or from an earlier boot, said in row and clock fields, and reports true only for a roll-back that left the host ready |
| GenerationManager.TimerMeans | internal/reconcile/manager.go:519-563 | in fields, for every world: what a timer without faults answers and leaves, published, not due, due with a predecessor, due as first generation |
| GenerationManager.Manager.RecoverAtBoot | internal/reconcile/recovery.go:25-92 | success means readiness; rows become those decided by the rename alone; calm outcome exact; no ambiguous refusal |
| GenerationManager.BootMeans | internal/reconcile/recovery.go:25-156 | in fields, with something in flight: published is finalized, otherwise it is decided if and only if it is prepared, from another boot or past its deadline, and left with rows, enforcement pointer and kernel untouched if not |
| GenerationManager.BootRestoresMeans | internal/reconcile/recovery.go:57-92 | in fields, with nothing in flight: the latest committed generation is brought back, and with none nothing changes |
| GenerationManager.Manager.RecoverPending | internal/reconcile/recovery.go:93-138 | published is finalized, otherwise the predecessor is restored and the row rolled back, or the candidate is still within its time |
| GenerationManager.Manager.ReturnToPredecessor | internal/reconcile/recovery.go:158-190 | success means the exact committed predecessor is verified in the kernel; it fails only by device error or death |
| GenerationManager.Manager.RollbackFirstAtBoot | internal/reconcile/recovery.go:192-230 | a first generation is removed only if it left no tables or tables that match its recorded hash |
| GenerationManager.Manager.Establish | internal/reconcile/recovery.go:271-302 | a generation verified in place is left alone, otherwise reinstalled and verified; fingerprint refusals never occur |
| GenerationManager.Manager.Reconcile | internal/reconcile/manager.go:572-674 | drift is reported if and only if there is some; without repair nothing moves; a repair rolls back an unfinished candidate or reinstalls the expected generation; calm outcome exact |
| GenerationManager.ReconcileMeans | internal/state/store.go:744-766 | in fields: which generation should run, that drift is an unapplied candidate, a modified kernel or a fingerprint other than that generation's, and exactly what each repair leaves |
| GenerationHistories.RecoversExactly | internal/reconcile/recovery.go:57-138 | recovery makes the host ready if and only if a committed or published generation exists and nothing in flight is still within its time |
| GenerationHistories.RecoveryMayBeRerun | internal/reconcile/recovery.go:74-117 | a recovery that can make the host ready, cut anywhere and started again, ends with the same rows, hashes, enforcement pointer and kernel fingerprint |
| GenerationHistories.RemovalMayBeRerun | internal/reconcile/recovery.go:192-230 | a removal of a first generation, cut anywhere and started again, ends with the same rows and hashes and bare tables |
| GenerationHistories.RecoveryMayBeRerunAfterReboot | internal/reconcile/recovery.go:140-156 | the same when a power failure cut it |
| GenerationHistories.RebootMakesDue | internal/reconcile/recovery.go:140-156 | after a reboot nothing in flight is still within its time |
| GenerationHistories.OrphanBlocksEveryApply | internal/state/store.go:491-502 | once a file of the next id is from an earlier boot or names another predecessor, no run of writes ever adds a row, and every apply of that id is refused |
| GenerationHistories.OrphanNeverGetsRow | internal/state/store.go:491-502 | the same for whatever a controller has done since |
| GenerationHistories.OrphanExample | internal/state/active.go:479-500 | the concrete run: two files saved, death, reboot, refusal |
| GenerationHistories.History | internal/reconcile/manager.go:94-674 | over any sequence of requests with any faults no ambiguous state is reported and kept generations stay kept |
| GenerationHistories.FirstUseOwnership | internal/reconcile/manager.go:139-143 | whatever failed or died, tables from before the first success are untouched |
| GenerationHistories.HistoryIsAtomic | internal/reconcile/manager.go:437-452 | after any history a generation out of flight is committed if and only if it was published |
| MarkScan.Scanner.Inspect | internal/nft/provenance_collision.go:324-400 | the recursive scan gives the verdict of the expression or hits a limit, and hits none when size and height fit |
| MarkMeaning.CleanMeans | internal/nft/provenance_collision.go:324-484 | an expression is clean if and only if it is harmless, which is said without the scanner: no mark descriptor but under a clear mask, no assignment to the mark, nothing opaque or ill formed |
| MarkScan.Scanner.InspectAnd | internal/nft/provenance_collision.go:402-450 | the exemption for masked reads, decided by the one bare read and constants clear of the reserved byte |
| MarkMeaning.MaskMeans | internal/nft/provenance_collision.go:402-450 | with a bare read among the operands the mask is clean if and only if everything else in it is a constant below 2^24 |
| MarkMeaning.WrittenMaskVerdict | internal/nft/provenance_collision.go:423-437 | for every n below 2^32, a bare read masked with the decimal n, on either side, is clean exactly when the high byte of n is zero, and an overlap otherwise |
| MarkScan.Scanner.InspectMangle | internal/nft/provenance_collision.go:452-484 | an assignment to the mark collides, a malformed one is a fault, anything else is its parts |
| MarkScan.ParseConstant | internal/nft/provenance_collision.go:542-565 | digit-by-digit parsing with an overflow check gives exactly the positional value below 2^32, or nothing |
| MarkMeaning.ConstantsAreNumerals | internal/nft/provenance_collision.go:542-565 | a text is a constant of value n if and only if n is below 2^32 and the text is a numeral for n: decimal digits, or hexadecimal ones of either case behind either prefix, with at most one separator before a digit |
| MarkMeaning.DecimalConstant | internal/nft/provenance_collision.go:542-565 | the decimal text of n is the constant n for every n below 2^32, and no constant from there on |
| MarkScan.Audit | internal/nft/provenance_collision.go:213-257 | counts of foreign, ignored and colliding rules and the first colliding one are exact unless a fault ends the audit |
| MarkScan.Passes | internal/nft/provenance_collision.go:92-109 | within the limits a ruleset passes if and only if every foreign rule is clean |
| MarkIndependence.CleanIsIndependent | internal/nft/provenance_collision.go:324-484 | a clean expression has the same value and effect under any two marks that agree on the low 24 bits, and never writes the mark, whatever the other operators mean |
| MarkIndependence.MaskedReadIsIndependent | internal/nft/provenance_collision.go:423-437 | a read masked by constants clear of the reserved byte cannot depend on it, wherever it stands among the operands |
| MarkIndependence.ForeignRulesAreIndependent | internal/nft/provenance_collision.go:213-257 | no walk of any length through the foreign rules of a passing ruleset depends on the reserved byte or writes the mark |
| MarkFaults.ArrayVerdict | internal/nft/provenance_collision.go:321-347 | among siblings a fault anywhere is reported and cleanliness means all are clean |
| MarkFaults.ReportedExactly | internal/nft/provenance_collision.go:321-484 | an expression is reported as malformed if and only if the scan comes to something ill formed in it: nothing beyond an opaque statement, a mark descriptor, or the operands a mask with a bare read only looks at |
| MarkFaults.HiddenFault | internal/nft/provenance_collision.go:402-437 | one concrete fault: reported alone, and hidden behind a mask with a bare read and behind an opaque statement |
| MarkFaults.FaultsGoUnreported | internal/nft/provenance_collision.go:352-437 | the inputs: beside a bare read in a mask, or beside an opaque statement, any fault goes unreported |
| ProvenanceIds.ValidateActive | internal/provenance/ledger.go:58-87 | accepted if and only if bounded, well formed, and one-to-one between names and ids |
| PolicyModel.Validate | internal/config/config.go:287-690 | the modelled checks accept exactly the configurations that satisfy them all |
| PolicyModel.IdsAreOneToOne | internal/config/config.go:372-399 | in a validated configuration interface names and ids determine each other |
| PolicyCompiler.CompilePolicy | internal/policy/model.go:18-30 | the effective policy indexes exactly the configured zones and services, and exists if and only if the configuration is valid |
| PolicyCompiler.BuildSelectors | internal/compiler/compiler.go:571-624 | the loops build exactly the specified selectors |
| PolicyCompiler.Writer.EmitOutput | internal/compiler/compiler.go:144-166 | the output chain is emitted layer by layer as specified |
| PolicyCompiler.Writer.EmitForwardChain | internal/compiler/compiler.go:167-183 | likewise the forward chain |
| PolicyCompiler.Writer.EmitInput | internal/compiler/compiler.go:123-143 | likewise the input chain |
| PolicyMeaning.SelectorsExact | internal/compiler/compiler.go:571-624 | the selectors of a zone take exactly the packets the zone covers, with interfaces and networks both required where both are given |
| PolicyMeaning.RequiresVpnMeans | internal/compiler/compiler.go:637-644 | a destination needs the tunnel if and only if its address lies in none of the listed private, link-local and loopback networks, IPv4 ones mapped into IPv6 included |
| PolicyMeaning.PolicyExact | internal/compiler/compiler.go:517-563 | the rules emitted for a policy fire on exactly the packets the policy covers on that hook |
| PolicyMeaning.EmittedPoliciesExact | internal/compiler/compiler.go:493-502 | all emitted policies of one action together decide exactly what some policy of that action covers |
| PacketRules.UniformSegment | internal/compiler/compiler.go:109-184 | a run of rules with one effect decides exactly the packets one of them matches |
| PacketRules.Layered.VerdictIsExact | internal/compiler/compiler.go:109-184 | evaluating a layered chain rule by rule is deciding its layers in order |
| PacketRules.MarkIsTaggedOnce | internal/compiler/compiler.go:186-196 | a chain keeps the low bits, keeps an identity once there is one, and leaves replies alone |
| TrafficGuarantees.ChainsAreExact | internal/compiler/compiler.go:109-184 | for every hook, packet and mark the compiled chain accepts exactly what its meaning admits, and drops the rest |
| TrafficLaws.InputLaw | internal/compiler/compiler.go:109-143 | in terms of the configuration: what the input chain accepts, both ways |
| TrafficLaws.NewInputLaw | internal/compiler/compiler.go:504-515 | a new packet that no fixed rule covers reaches the host if and only if its source is not blocked, no deny policy lets it in and some allow policy does, with target host, source other than host, and zone and service covering the packet |
| TrafficLaws.ForwardLaw | internal/compiler/compiler.go:167-183 | likewise for the forward chain: both ends other than host, and never onto the uplink but replies |
| TrafficLaws.OutputLaw | internal/compiler/compiler.go:144-166 | likewise for the output chain: source host or any, target other than host, beside the fixed rules |
| TrafficLaws.MarkLaw | internal/compiler/compiler.go:186-233 | a taggable packet on a configured interface with no identity yet leaves with exactly that interface's identity; in every other case the mark is unchanged |
| TrafficLaws.ClampLaw | internal/compiler/compiler.go:271-295 | a segment size is clamped if and only if a TCP opening segment crosses between a container network and the tunnel |
| TrafficGuarantees.KillSwitch | internal/compiler/compiler.go:144-166 | what leaves on the uplink is a reply carrying its identity, address configuration, marked tunnel bootstrap traffic, or allowed to a network-only zone whose network needs no tunnel; with IPv6 off never IPv6 |
| TrafficGuarantees.ForwardKillSwitch | internal/compiler/compiler.go:167-183 | nothing is forwarded onto the uplink but replies carrying its identity; with IPv6 off no IPv6 at all |
| TrafficGuarantees.AllowedOnUplink | internal/config/config.go:543-555 | validation leaves no allow policy from the host that reaches the uplink by interface |
| TrafficGuarantees.Ip6OnlyLoopback | internal/compiler/compiler.go:468-491 | the ip6 table of the disabled mode accepts loopback only |
| TrafficGuarantees.ConnectionKeepsMark | internal/compiler/compiler.go:186-233 | over any packets of a connection the low 24 bits never change and the reserved byte takes at most one identity, that of one of the packets' own interfaces |
| TrafficGuarantees.RepliesReturnWhereTheyCame | internal/compiler/compiler.go:198-233 | once a connection has an identity, every reply the provenance rules accept uses exactly that interface |
| PolicyModel.MaskedContains | internal/compiler/compiler.go:241-269 | the masked prefix a container binding is written with covers exactly the addresses of the configured one |
| ScriptLines.WriteText | internal/compiler/compiler.go:78-88 | the lines are written one after another |
| ScriptLines.FineLinesAreAccepted | internal/nft/backend.go:699-754 | a script of comments, openings of owned tables and lines of words that are none of the validator's own is accepted, whatever its quoted texts say |
| ScriptClauses.ClauseMild | internal/compiler/compiler.go:571-686 | no clause the compiler can write, for any validated names, spellings and ports, holds a word of the validator's own |
| ScriptAcceptance.CompiledIsAccepted | internal/compiler/compiler.go:43-99 | every script compiled from a validated configuration is accepted, however prefixes are spelled and comments worded |
| ScriptAcceptance.ReplacementIsAccepted | internal/nft/backend.go:855-864 | and still is when whichever owned tables exist are destroyed first |
| ScriptReader.ClauseReads | internal/compiler/compiler.go:571-686 | a written clause, read by its words alone, is the typed clause, and what follows it is left unread |
| ScriptLexer.LexedAgain | internal/compiler/compiler.go:78-88 | the text of any lines without ambiguous words is cut into exactly those lines and words |
| ScriptReader.RuleReads | internal/compiler/compiler.go:517-563 | the words of a written rule are read as the meanings of its clauses in order and its effect |
| ScriptReader.ReadBackMatches | internal/compiler/compiler.go:517-563 | the rule read back fires on exactly the packets and marks of the rule written |
| ScriptMeaning.ScriptMeansItsChains | internal/compiler/compiler.go:109-184 | the text of a whole script, cut into lines and words and read, gives every packet and mark on each base chain the verdict and mark of the compiled rules, and accepts exactly what the chain's meaning admits |
| ProvenanceLedger.Ledger.Reserve | internal/provenance/ledger.go:235-289 | succeeds if and only if ids stay, no name was retired, no id is taken and storage works; afterwards the whole table is determined |
| ProvenanceLedger.ReserveIsExact | internal/provenance/ledger.go:235-289 | after a reservation exactly the requested names are active, under exactly the requested ids |
| ProvenanceLedger.ReserveTwice | internal/provenance/ledger.go:235-289 | the same reservation again succeeds and changes nothing |
| ProvenanceLedger.Ledger.ValidateRequired | internal/provenance/ledger.go:293-323 | accepts if and only if every required pair is on record, tombstones included, and the list is one-to-one |
| ProvenanceLedger.RequiredForever | internal/provenance/ledger.go:293-323 | what once passed keeps passing |
| ProvenanceLedger.Ledger.MergeFrom | internal/provenance/ledger.go:454-524 | a merge adds names and changes or revives nothing, or is refused without change |
| ProvenanceLedger.MergeOlder | internal/provenance/ledger.go:451-453 | an older copy merges if and only if it knows every active name, and then changes nothing |
| ProvenanceLedger.MergeNewer | internal/provenance/ledger.go:451-453 | a newer copy merges if and only if it retired none of the active names, and gives exactly that copy |
| ProvenanceLedger.LedgerIsMonotonic | internal/provenance/ledger.go:235-323 | over any calls with any faults the table only grows, ids stay one-to-one and passed requirements keep passing |
| ProvenanceLedger.IdsAreNeverReused | internal/provenance/ledger.go:1-5 | an id once given to a name is never another name's |
| SetupTransaction.Setup.Run | internal/setup/engine.go:132-274 | a run ends protected only with a completed journal and a committed generation; a calm one does so exactly when it may begin |
| SetupTransaction.Setup.RunStep | internal/setup/engine.go:252-267 | each phase keeps the journal on disk in step with memory and with the generation, or ends in recovery |
| SetupTransaction.Setup.Recover | internal/setup/engine.go:297-387 | recovery goes forward if and only if the generation is known committed, and calls roll-back on a committed one exactly under the stated condition |
| SetupTransaction.Setup.RollbackExpired | internal/setup/engine.go:276-295 | an unexpired or finished transaction is left alone, and an expired one without faults is always ended, as the journal says |
| SetupTransaction.Setup.RollbackCommand | cmd/nftfw/managed.go:348-496 | the watchdog never finds a journal it rejects, and acts only on a transaction that was expired and still is; without faults it, like the operator, then never answers that there is nothing to do: the journal ends rolled back, completed or waiting for the inverse boot, which of them said by the old journal, the generation, enforcement and the boot-preparation flag |
| SetupTransaction.CheckJournal | cmd/nftfw/managed.go:526-594 | the watchdog's own check accepts exactly the journals every setup run keeps to |
| SetupTransaction.Setup.FinalizeBootRollback | cmd/nftfw/managed.go:394-417 | after the inverse boot an uncommitted generation stays recorded and a committed one is cleared |
| SetupTransaction.Setup.BootHandoff | cmd/nftfw/managed.go:278-318 | the boot policy is handed back, or a reboot asked for, with an acceptable journal either way |
| SetupTransaction.Setup.Serve | cmd/nftfw/managed.go:525-594 | whatever commands, faults and deaths, the journal on disk is one the watchdog accepts |
| SetupTransaction.InspectionCanMisread | internal/setup/system.go:1804-1816 | a sound journal of a committed generation that is not enforced, which a recovery rolls back and would not if it were enforced |
| SetupTransaction.CommittedIsSafeWhenEnforced | internal/setup/engine.go:311-351 | an enforced committed generation is never rolled back; an unenforced one is exactly when the journal does not say committed |
| SetupTransaction.Setup.Begin | internal/setup/journal.go:21-46 | a new transaction replaces only the terminal journal it was told about, archived first |
| SetupTransaction.Setup.ReadLineage | internal/setup/retry.go:243-295 | the lineage lists every terminal transaction exactly once and setup's own archive is never ambiguous |
| ManagedChange.Change.Run | cmd/nftfw/managed.go:938-1074 | a calm change ends with both files new and the generation committed, or both old and nothing left behind |
| ManagedChange.Change.RollbackKnown | cmd/nftfw/managed_recovery.go:116-138 | files are put back even when the roll-back is refused, but the journal is cleared only if the generation is not committed |
| ManagedChange.Change.Recover | cmd/nftfw/managed_recovery.go:140-188 | calm recovery clears the journal if and only if the change is not stuck, leaving both files and the generation as the generation was, committed or not, and a stuck change stays stuck |
| ManagedChange.Change.Cleanup | cmd/nftfw/managed_recovery.go:304-317 | the journal goes last and only when terminal, over any crash inside |
| ManagedChange.Change.Serve | cmd/nftfw/managed_recovery.go:66-188 | every journal ever cleared left both files new with the generation committed, or both old with it never committed |
| ScriptGuard.Strip | internal/nft/backend.go:804-844 | the byte loop computes exactly the specified stripping |
| ScriptGuard.StripKeepsOnlyPlain | internal/nft/backend.go:804-844 | stripping keeps exactly what is neither quoted nor commented |
| ScriptGuard.StripDecomposes | internal/nft/backend.go:804-844 | every script that stripping lets through is plain text, quoted texts and comments, and what is left is its plain text |
| ScriptGuard.VerdictIgnoresText | internal/nft/backend.go:699-754 | the verdict does not depend on any quoted or commented text |
| ScriptGuard.Validate | internal/nft/backend.go:699-754 | the token loops accept exactly the specified scripts |
| ScriptRefusals.AcceptsMeans | internal/nft/backend.go:699-754 | a script is accepted if and only if it is not blank, strips, has no flush directly before ruleset, and no statement of it does harm, which is said of the words alone |
| ScriptRefusals.HarmIsRefused | internal/nft/backend.go:719-752 | one harmful statement anywhere in a script, however its words are spaced, makes it refused |
| ScriptRefusals.FlushIsRefused | internal/nft/backend.go:707-712 | flushing the ruleset anywhere is refused, over line breaks and in any spelling |
| ScriptGuard.DestroysAreTransparent | internal/nft/backend.go:855-864 | removing any existing owned tables first never changes the verdict |
| ScriptGuard.SetScriptsAreAccepted | internal/nft/backend.go:348-392 | every set replacement with well-formed prefixes is accepted |
| DockerProjection.Project | internal/containers/managed.go:530-669 | the loops compute exactly the specified projection, or refuse |
| DockerMeaning.ProjectsExactly | internal/containers/managed.go:530-669 | a projection exists if and only if the observations agree with each other, confirm every declared network, and no two interfaces end with the same name |
| DockerMeaning.NetworksMean | internal/containers/managed.go:586-634 | each projected network has its name, driver and plan, and exactly the bridge it was seen on |
| DockerMeaning.LinksMean | internal/containers/managed.go:636-653 | an interface of no network is unchanged; that of a network takes its bridge and its subnets and nothing else |
| DockerProjection.IdentitiesStay | internal/containers/managed.go:636-653 | every interface keeps its identity, id and zone |
| DockerProjection.PlansStay | internal/containers/managed.go:594-634 | every network keeps its subnets, each with its gateway |
| DockerProjection.ZonesFollow | internal/containers/managed.go:655-664 | a zone lists a network's bridge afterwards if and only if it listed its bridge before |
| DockerProjection.SwapFollows | internal/containers/managed.go:653-664 | when two networks swap bridges each keeps its zones |
| DockerProjection.ProjectTwice | internal/containers/managed.go:530-669 | projecting again with the same observation changes nothing |
| ClaimRestore.ClaimStore.Restore | internal/app/runtime.go:1562-1576 | with both totals within the limit no replacement is refused, every source ends with exactly its prior claims, and the total stays the number of claims |
| ClaimRestore.PrefixWithin | internal/app/runtime.go:1562-1568 | in ascending order of growth no intermediate total exceeds both ends |
| ClaimRestore.GrowingFirstExceeds | internal/app/runtime.go:1563-1564 | another order can exceed the limit on the way |

## Left out

- SQLite, fsync, file modes and ownership, symlink checks, JSON and TOML encoding, SHA-256: a durable write is one atomic step on decoded values.
- Nested applies from the post-restore callback: the callback is a device call that may fail or be the last thing the process does.
- The provenance manifest inside a generation snapshot: the ledger check of a snapshot is part of reading it.
- The kernel's own rendering of rules: an installed script determines the fingerprint of the tables it made.
- Several reads in a row with no write between are one device call; each refusal of a first generation that cannot be proved its own is one refusal.
- One controller object is one process; process restarts and other processes under the lock are the requests of a history.
- GenerationManager.Manager.Commit: the store's commit of rows outside the two-phase path is not modelled, because no command uses it.
- PolicyModel.Validate: prefix overlap, one zone for each interface, Docker, NAT, feed, path and size checks are not modelled, because no traffic theorem depends on them.
- PolicyCompiler.Writer.EmitForwardChain: container bindings with the same interface keep configuration order; the chain's meaning does not depend on it.
- The meaning of the NAT table: its text is modelled and accepted, but what it does to packets is not. A rule without a service is written with one blank where the compiler leaves two.
- ScriptAcceptance.CompiledIsAccepted: one spelling for each prefix and one for the mark; the observed container networks are any prefixes.
- Packets of a connection are any packets: connection tracking state, direction and NAT are inputs, and a dropped first packet may leave its mark.
- ScriptGuard.Validate: only ASCII blanks and letters are recognised, and the kind of refusal is not kept.
- DockerProjection.Project: takes a validated declaration, which is what a loaded configuration is, and checks after projecting only the links, networks and zones; interface name patterns are reduced to being non-empty without a colon.
- ClaimRestore.ClaimStore.Restore: claims that expire meanwhile, and storage failures, are not modelled.
- SetupTransaction.InspectionCanMisread: the journal is shown to be sound, not as the end of a run of commands.
- SetupTransaction.Setup.Run: assumes backup paths are canonical, timeouts positive and transaction names fresh; what each executor step does to the host is not modelled.
- SetupTransaction.Setup.ReadLineage: retired backups and generation inventories are not modelled.
- ManagedChange.Change.Serve: a generation applied with a lost reply is assumed never to be committed by hand.
- Convergence of a managed change beyond what recovery without faults does.
- The explanation of decisions, adoption planning, discovery parsing, routing, boot files, the dashboard and printing: mostly single-branch checks over outside data.
