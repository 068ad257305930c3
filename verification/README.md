# Recovery journal, finality and capacity harness of engine-core: a verified model

This project models, in Dafny, the parts of engine-core on which its safety claims rest, and proves those
claims for every input, every run and every interleaving.

- **The recovery journal.** A local ledger is the authority; Redis carries one checkpoint token per namespace.
  `Ledger.dfy` holds the tables as a value and every SQL transaction as a function. `Protocol.dfy` is the
  protocol as a state machine whose steps are single atomic actions: one transaction, one Redis command or one
  decision. Between any two steps Redis may restart, change role, lose or roll back markers; a command already
  sent may still arrive, late or twice; the process may die; and a call may fail before or after it took effect.
  `LedgerInvariant.dfy` and `ProtocolInvariant.dfy` hold the inductive invariant. `Runs.dfy`, `Publication.dfy`,
  `Authorization.dfy`, `Convergence.dfy` and `SolanaBudget.dfy` state what follows over whole runs.
- **The journal as it runs.** `Journal.dfy` and `Offline.dfy` are the same operations in imperative form: objects
  that reassign their ledger, Redis and latch, step by step. Each object keeps the run of the state machine it has
  made so far, so every whole-run theorem applies to every state it passes through, a reader that takes no lock may
  see any of those states, and each method states what it leaves in the ledger.
- **Finality and settlement.** `Finality.dfy` judges a receipt by reads of a chain that may reorganise between
  any two of them; `Settlement.dfy` is the bounded compare-and-swap loop, with any operations of other workers
  between two awaits; `EoaBoundary.dfy` is the last boundary before broadcast, where keys come from signed wires, and
  `TransactionRequest.dfy` is the user's request as it is admitted.
- **Texts.** `ReplayKey.dfy`, `Json.dfy`, `Identity.dfy`, `Text.dfy` and `Slices.dfy` treat the texts that stand for identities.
- **The capacity harness.** `Rlp.dfy`, `EvmWire.dfy`, `OpenLoop.dfy`, `ResourcePolicy.dfy`, `Resp.dfy` and
  `RecoveryInventory.dfy` are its self-contained algorithms. `Shutdown.dfy` is the registration barrier.

Run `dafny verify dfyconfig.toml`.

## Assumptions

- A SQL transaction and a Redis command (the publish script, `SET NX`, the three-part observation) are atomic;
  committed transactions are durable; one process owns the ledger at a time.
- SHA-256 is an ideal digest. Hash, signature, address and user-operation decoders are arbitrary functions
  (`Libraries`); Keccak is an arbitrary function.
- In the JSON of a request, addresses and byte strings are lower-case hexadecimal and 256-bit numbers are hexadecimal
  quantities without leading zeros, as the Ethereum types of the program's library print them. Serialized objects
  never repeat a key.
- Blocks are hash-linked. Where a theorem needs the chain never to return to an abandoned block it says so, and
  `Finality.FlippingChainDefeatsRecheck` shows what happens otherwise.
- Three results name an exact boundary rather than an unconditional law: accepted finality evidence covers its
  receipt exactly when the receipt was canonical where the checkpoint was read; the RESP reader returns one whole
  value exactly when the value carries no attribute prefix; and waiting as long as a refused recovery claim says
  ends the refusal exactly when the clock does not stand before the last broadcast.
- A deployment may start from `initialize` or from any older ledger that satisfies the invariant; schema
  migration is a step of the protocol.

## Model

| member | source | states |
|---|---|---|
| `Runs.RunSafe` | core/src/recovery.rs:748-1670 | the protocol invariant holds in every state of every run, whatever Redis does and wherever the process dies |
| `Runs.RunEvolves` | core/src/recovery.rs:929-1670 | from any state of a run to any later one admissions, attempts, evidence, checkpoints, halts, Solana budgets, tokens and fences only move forward |
| `ProtocolInvariant.NextSafe` | core/src/recovery.rs:748-928 | every atomic step, of the process, of Redis, of a delayed command or of the operator, keeps the invariant |
| `LedgerInvariant.TransactKeeps` | core/src/recovery.rs:929-1451 | every SQL transaction keeps the table and control-row invariants and changes the ledger only monotonically |
| `LedgerInvariant.EvolvesTrans` | core/src/recovery.rs:929-1670 | the permitted ledger changes compose |
| `LedgerInvariant.CommitSpec` | core/src/recovery.rs:450-462 | a commit moves the checkpoint by one, records exactly its direct predecessor as the one pending row, and is impossible over an existing pending row |
| `LedgerInvariant.BindingPredictsBroadcast` | core/src/recovery.rs:1065-1229 | a broadcast is permitted exactly when the read-only check before signing passes under its key, a Solana id is not in recovery mode and the schema knows that mode, and the wire is already stored or one more transition fits |
| `LedgerInvariant.RecoverKeeps` | core/src/recovery.rs:1568-1643 | recovery's one transaction keeps every table invariant and only moves the ledger forward |
| `LedgerInvariant.RetainSpec` | core/src/recovery/solana_projection.rs:73-173 | a retained attempt is the id's single recorded row under its bound key, with the stored budget |
| `ProtocolInvariant.TransactMoved` | core/src/recovery.rs:450-462 | a transaction moves the checkpoint and records exactly that move, changes nothing, or records a contradiction |
| `ProtocolInvariant.TransactPermits` | core/src/recovery.rs:1136-1226 | a reply grants only what the ledger it leaves behind permits: durable wire, Admitted id, owned key, chain not halted |
| `EoaBoundary.OneIntentPerNonce` | executors/src/recovery.rs:102-262 | over every run, two granted wires belong to one intent exactly when chain, sender and nonce agree |
| `EoaBoundary.OneTransactionPerNonce` | executors/src/recovery.rs:102-262 | over every run, all wires ever permitted for one chain, sender and nonce, or for one id, are the same transaction: recipient, value, data and authorizations agree, and a nonce never serves both a user intent and a NOOP |
| `TransactionRequest.RequestJsonInjective` | executors/src/eoa/store/mod.rs:64-89 | requests admitted under one canonical text agree on id, chain, sender, recipient, value, data, gas limit and authorizations |
| `Runs.OneIntentPerKey` | core/src/recovery.rs:1173-1219 | over every run at most one id is ever granted a replay key |
| `Runs.KeyOwnerNeverChanges` | core/src/recovery.rs:1173-1219 | a bound key keeps its owner for ever and every attempt row carries its admission's key |
| `Runs.AdmissionLifeCycle` | core/src/recovery.rs:93-99 | kind, fingerprint and payload never change, only Admitted can be left, and attempts are frozen once it is |
| `Runs.ReservationReturnsFirstPayload` | core/src/recovery.rs:951-977 | every later successful reservation returns the payload of the first and changes nothing |
| `Identity.ExcludedNonceIsNotConflict` | core/src/recovery.rs:231-245 | a retry gets the first payload back exactly when its intent is the same value, whatever its generated nonce and key order; any other retry conflicts and a quarantined id answers none |
| `Identity.FingerprintDecides` | core/src/recovery.rs:231-245 | fingerprints agree exactly when kind and intent agree, up to key order and the excluded nonce |
| `Identity.TokenTextInjective` | core/src/recovery.rs:152-158 | one token text is one token, so tokens may be treated as tuples |
| `Identity.MarkerKeyAliases` | core/src/recovery.rs:272-277 | two namespaces share a marker key exactly when equal, or one is the default and the other is named engine |
| `Json.CanonicalDecides` | core/src/recovery.rs:209-230 | canonical texts agree exactly on equal JSON values, whatever the key order |
| `Json.PrintInjective` | core/src/recovery.rs:222-229 | a JSON text determines its value |
| `Runs.NoGrantAfterAdmitted` | core/src/recovery.rs:1147-1151 | no permission is ever given for an id that has left Admitted |
| `Runs.RecoveryNeverResends` | core/src/recovery.rs:1565-1670 | after a recovery no id attempted before it is ever permitted again and its key never passes to another id |
| `Runs.FenceNeverCleared` | core/src/recovery.rs:748-762 | a committed mismatch, storage, terminal or operator halt is left only by recovery into a later epoch |
| `Runs.EpochChangesOnlyByRecovery` | core/src/recovery.rs:1624-1643 | the epoch changes only when recovery commits, with another namespace, halted and at checkpoint zero |
| `Runs.ContradictionIsForever` | core/src/recovery.rs:1314-1338 | a second, different witness halts the ledger for ever: neither reattach nor recover is allowed again |
| `Runs.OneWitnessIffTerminal` | core/src/recovery.rs:1295-1344 | in every un-halted state an id has exactly one witness if terminal and none otherwise |
| `Runs.FirstWitnessNeverReplaced` | core/src/recovery.rs:1000-1024 | the first witness of an id is never replaced |
| `Runs.CheckpointMonotone` | core/src/recovery.rs:1371-1430 | over every interleaving a chain's stored height never falls, its policy and the row at a height never change, and chain halts are never removed |
| `Runs.TokensIncrease` | core/src/recovery.rs:450-462 | tokens never go back and every recorded move strictly raises them, over an empty pending slot |
| `Runs.RecordedMove` | core/src/recovery/projection.rs:81-97 | only a committing transaction records a pending transition, from the token it replaces |
| `Runs.InitializedSafe` | core/src/recovery.rs:550-568 | a freshly initialised deployment satisfies the invariant |
| `Publication.PublicationInvariant` | core/src/recovery.rs:794-928 | while Redis changes only through the engine's commands, even delayed or repeated ones, the marker is the current token or exactly the pending predecessor |
| `Publication.DeploymentStaysIntact` | core/src/recovery.rs:794-928 | from the initialization of a deployment on, while Redis changes only through the engine's commands, a released ledger's marker is the current token or exactly the pending predecessor |
| `Publication.UnhaltedWasPublished` | core/src/recovery.rs:550-583 | with losses and rollbacks but no forgery, an un-halted ledger is one whose marker was written in its own epoch, wherever initialize or recover crashed |
| `Publication.DeploymentWasPublished` | core/src/recovery.rs:550-583 | from the initialization of a deployment under an identifier Redis has not seen, through any loss or rollback, an un-halted ledger is one whose marker was written in its own epoch |
| `Publication.MessageKeeps` | core/src/recovery.rs:849-868 | no command in flight, however late, moves a marker anywhere but to the current token |
| `Authorization.GrantIsAuthorized` | core/src/recovery.rs:1122-1229 | whenever permission is returned: durable exact wire, Admitted owner, chain not halted, nothing pending, Redis seen with the current token as the same primary within the operation; the row stays in every later state |
| `Authorization.SeenWasAttached` | core/src/recovery.rs:796-819 | what an operation has seen confirmed, Redis really held at a moment of that operation |
| `Authorization.ForeignMarkerFences` | core/src/recovery.rs:748-903 | a process that meets a foreign marker, in an observation, in the publish script or in reading back, never succeeds again, grants nothing, changes no row, and halts the ledger durably unless that write is lost |
| `Authorization.LatchedForever` | core/src/recovery.rs:763-768 | a latched process answers only with failures until it is gone |
| `Authorization.ClearingNeedsExactMarker` | core/src/recovery.rs:1480-1670 | a halt is cleared, and a Redis process adopted, only after the exact current token was observed in that very primary process; initialization alone clears its own halt, on having found no marker and written the first token itself |
| `Convergence.GateConverges` | core/src/recovery.rs:763-792 | from a healthy state the gate publishes and acknowledges the recorded transition and changes nothing else |
| `Convergence.CrashConverges` | core/src/recovery.rs:763-928 | wherever a process dies, a restart against an intact Redis ends with marker = token, nothing pending and no checkpoint of its own |
| `Convergence.OperationCommitsOnce` | core/src/recovery.rs:929-1451 | from call to answer, whatever fails, the ledger is the one before the call or the one its single transaction commits |
| `Convergence.CrashedOperationConverges` | core/src/recovery.rs:684-715 | a crash at any cut of an operation leaves what a restart completes, with zero or exactly one checkpoint increment |
| `Convergence.RetrySucceeds` | core/src/recovery.rs:1190-1226 | retrying a recorded broadcast succeeds without a second row or increment |
| `Convergence.CommittedBroadcastRetries` | core/src/recovery.rs:1190-1226 | a broadcast that committed and lost its answer succeeds on the same call once Redis is healthy |
| `Convergence.InterruptedBroadcastCompletes` | core/src/recovery.rs:1122-1229 | a broadcast answered with a pending publication, or cut anywhere else, succeeds on the same call once Redis is healthy, with at most one new row and one increment over both calls |
| `Convergence.CommitCompletes` | core/src/recovery.rs:905-985 | from a healthy state an operation that commits runs to its answer, one checkpoint further, acknowledged, with the marker at the new token |
| `Convergence.FreshDeploymentServes` | core/src/recovery.rs:532-624 | a fresh deployment publishes its marker, is released, and its first process starts healthy |
| `SolanaBudget.RecoveryGrantsBounded` | core/src/recovery/solana_projection.rs:219-308 | over every run an id gets at most twenty recovery grants, each at least the interval after the one before, whatever the clock does |
| `SolanaBudget.DeploymentBudget` | core/src/recovery/solana_projection.rs:219-308 | from the initialization of a deployment on, every id gets at most twenty recovery grants, an interval apart |
| `SolanaBudget.RecoveryModeExcludesOrdinary` | core/src/recovery/solana_projection.rs:176-214 | recovery mode is permanent and excludes ordinary grants |
| `SolanaBudget.WaitIsExact` | core/src/recovery/solana_projection.rs:279-287 | a refused claim is refused until an interval after the last broadcast and no longer; the wait it names is exact, and is answered again exactly when the clock stood before the last broadcast |
| `SolanaBudget.ClockBehindWaitsAgain` | core/src/recovery/solana_projection.rs:279-287 | a clock one second behind is told to wait twice |
| `SolanaBudget.SpentForever` | core/src/recovery/solana_projection.rs:219-308 | once an id's twenty broadcasts are spent and the last answer is out, no later state of any run permits it anything, ordinary or recovery |
| `Journal.RecoveryJournal.constructor` | core/src/recovery.rs:584-624 | a new owner starts unlatched, at its start-up gate, from the last state of any run |
| `Journal.RecoveryJournal.Halt` | core/src/recovery.rs:748-762 | latches the process before the durable halt, which keeps an earlier reason and may be lost |
| `Journal.RecoveryJournal.HealthyLocked` | core/src/recovery.rs:763-792 | success means Redis was seen attached and the ledger is the old one with nothing pending; failure leaves rows and checkpoint alone |
| `Journal.RecoveryJournal.ObserveCheckpoint` | core/src/recovery.rs:796-819 | without a pending record success means the exact token in the same primary; failure changes no row |
| `Journal.RecoveryJournal.ConfirmCheckpoint` | core/src/recovery.rs:787-792 | looks at Redis and finishes the recorded transition; success leaves nothing pending and Redis attached |
| `Journal.RecoveryJournal.CompletePending` | core/src/recovery.rs:844-903 | publishes, reads back, acknowledges and looks again; only then proceeds |
| `Journal.RecoveryJournal.AcknowledgePending` | core/src/recovery/projection.rs:125-149 | deletes exactly the expected record of an un-halted ledger, or fails |
| `Journal.RecoveryJournal.Mirror` | core/src/recovery.rs:905-928 | carries a committed transition to Redis; success leaves the committed ledger acknowledged |
| `Journal.RecoveryJournal.Migrate` | core/src/recovery/projection.rs:99-121 | raises the schema and records the transition from the older token, or finds nothing to do |
| `Journal.RecoveryJournal.MigrateBehindGate` | core/src/recovery.rs:648-657 | after a migration the gate is passed again; success leaves the same rows at the current schema |
| `Journal.RecoveryJournal.PrepareOwnedStartup` | core/src/recovery.rs:627-659 | success leaves the same rows at the current schema with nothing pending; failure ends the process |
| `Journal.RecoveryJournal.Transaction` | core/src/recovery.rs:951-985 | one transaction, then mirror, answer or halt; success leaves exactly its ledger, acknowledged |
| `Journal.RecoveryJournal.Perform` | core/src/recovery.rs:929-1451 | every operation commits at most its one transaction, and a success is exactly that transaction's reply and ledger |
| `Journal.RecoveryJournal.EnsureHealthy` | core/src/recovery.rs:821-842 | success means a live gate and nothing pending; no row changes |
| `Journal.RecoveryJournal.ReserveAdmission` | core/src/recovery.rs:929-979 | admits once, returns the first payload for ever after |
| `Journal.RecoveryJournal.BeforeBroadcast` | core/src/recovery.rs:1122-1229 | success records the permission for a durable exact wire under an owned key, with at most one new row and one increment; failure grants nothing |
| `Journal.RecoveryJournal.RecordTerminalEvidence` | core/src/recovery.rs:1295-1344 | success leaves a first witness with this identity, and changes nothing if the id was terminal already |
| `Journal.RecoveryJournal.CommitFinality` | core/src/recovery.rs:1371-1430 | accepted means stored with the same height, hash and policy; not accepted means unchanged |
| `Journal.RecoveryJournal.HaltChainDurably` | core/src/recovery.rs:1431-1451 | adds exactly this chain to the halted ones |
| `Journal.RecoveryJournal.ValidateReplayBinding` | core/src/recovery.rs:1063-1121 | success means Admitted, free or own key, chain not halted; changes no row |
| `Journal.RecoveryJournal.PrepareSolanaRestore` | core/src/recovery/solana_projection.rs:176-214 | success with a retained attempt leaves the id in recovery mode under its bound key, granting nothing |
| `Journal.RecoveryJournal.BeforeSolanaRecoveryBroadcast` | core/src/recovery/solana_projection.rs:217-271 | a grant is one more than the stored count, within the limit, for the recorded wire |
| `Offline.LedgerFile.constructor` | core/src/recovery.rs:550-568 | a new ledger is created halted |
| `Offline.LedgerFile.FinishInitialize` | core/src/recovery.rs:568-583 | the ledger is released only after its marker was written |
| `Offline.LedgerFile.QuarantineLedger` | core/src/recovery.rs:1466-1477 | halts the ledger and keeps an earlier reason |
| `Offline.LedgerFile.Reattach` | core/src/recovery.rs:1478-1564 | success adopts a primary that holds the exact token, in one commit with the pending record; a forbidden halt leaves the ledger untouched |
| `Offline.LedgerFile.Recover` | core/src/recovery.rs:1565-1670 | success is exactly recovery's ledger, released, with Redis attached; otherwise the old ledger or the new epoch |
| `Offline.LedgerFile.BeginRecovery` | core/src/recovery.rs:1573-1609 | nothing is written before recovery is permitted, the marker absent and Redis primary |
| `RecoveryInventory.ValidateRecoveryInventory` | scripts/capacity_campaign.py:587-611 | accepts exactly the inventories that pass and counts terminal, quarantined and unsent ids |
| `RecoveryInventory.PassesIffRecovered` | scripts/capacity_campaign.py:587-611 | an inventory passes exactly when it is what recovery into another namespace produces |
| `Finality.SettledIsReorgSafe` | core/src/finality.rs:153-302 | with hash-linked views that never return to an abandoned block, accepted evidence covers its receipt wherever the checkpoint is canonical |
| `Finality.CoversIffCanonicalAtCheckpoint` | core/src/finality.rs:177-263 | accepted evidence covers the receipt exactly when the receipt was canonical in the view that gave the checkpoint |
| `Finality.FlippingChainDefeatsRecheck` | core/src/finality.rs:233-263 | without the no-return assumption a receipt off the checkpoint's branch can be accepted |
| `Finality.DepthCheckpoint` | core/src/finality.rs:190-231 | under a depth policy the checkpoint is exactly head minus depth, at or above the receipt, on the observed head's own branch; zero depth only on the local chain |
| `Finality.ConsistentKeepsReceipt` | core/src/finality.rs:117-142 | a later consistent continuity check proves the receipt is still canonical |
| `Finality.ContinuityExact` | core/src/finality.rs:117-142 | an honest answer conflicts exactly when the checkpoint was replaced; a reorganisation above it stays consistent |
| `Finality.OrphanedIsPositive` | core/src/finality.rs:150-184 | an orphaned verdict rests on another block at that height, never on an absent answer |
| `Finality.PendingCanonicalWasRead` | core/src/finality.rs:173-188 | pending claims the block canonical only after reading it so |
| `Settlement.Read` | core/src/recovery.rs:986-1024 | a read takes no lock: it sees any state of the run from a given one on, another worker's half-done operation included |
| `Settlement.LoadCheckpoint` | core/src/recovery.rs:1346-1370 | behind a health gate the chain was seen not halted, and at that or a later state of the run the returned checkpoint was the stored one |
| `Settlement.CheckContinuity` | executors/src/finality.rs:18-61 | success means a checkpoint stored at some state of the call still stands under this policy; a changed policy or replaced block leaves the chain halted |
| `Settlement.Assess` | executors/src/finality.rs:63-98 | for any interleaving of workers, a settled answer is the assessment and is stored at its commit with the same height, hash and policy |
| `Settlement.SettledStaysStored` | executors/src/finality.rs:76-98 | what was stored stays covered in every later state of the run |
| `Settlement.SameIdentityIffSameSettlement` | core/src/recovery.rs:1791-1798 | two settlements have one terminal identity exactly when transaction, outcome, block and policy agree |
| `Settlement.RepeatedSettlement` | core/src/recovery.rs:1314-1325 | a settled id reported again is a no-op under a later checkpoint and halts the ledger, both witnesses kept, otherwise |
| `EoaBoundary.ValidateAdmission` | core/src/recovery.rs:1025-1045 | behind a health gate the id was seen open under this kind and fingerprint |
| `EoaBoundary.ValidatePayload` | core/src/recovery.rs:1046-1062 | success means the admission is this very payload under this kind, and was still open at a state of the call |
| `EoaBoundary.BeforeEoa` | executors/src/recovery.rs:102-164 | a user intent is permitted only as its admitted request: the wire is the request and the request is the stored payload, under the key of its own signed nonce |
| `EoaBoundary.ReserveNoop` | executors/src/recovery.rs:166-193 | reserves the nonce under an id derived from it, still open and with nobody else holding the key |
| `EoaBoundary.BeforeNoop` | executors/src/recovery.rs:195-262 | a NOOP is permitted only as an empty self-transfer, under the id and key of its own signed nonce |
| `EoaBoundary.TerminalEoaProjection` | executors/src/finality.rs:195-235 | a projected hash is that of one of the id's own durable attempts under the reserved nonce, and only for the admitted request |
| `EoaBoundary.WitnessHashIsAttempt` | core/src/recovery.rs:1687-1775 | in every state the first witness carries the hash of an attempt recorded under the bound key |
| `EoaBoundary.ValidateAttemptIdentity` | core/src/recovery.rs:1275-1292 | behind a health gate the identity was seen among the id's own attempts |
| `EoaBoundary.ValidateEoaConfirmation` | executors/src/finality.rs:117-145 | a confirmation counts only for a hash among the id's own attempts under the reserved wallet and nonce |
| `ReplayKey.ValidKeyIffPrinted` | core/src/recovery.rs:1832-1865 | the validator accepts exactly the texts printed from a 64-bit chain, a 20-byte address and a 64-bit nonce |
| `ReplayKey.EvmKeyInjective` | executors/src/recovery.rs:115-120 | one key text per triple and one triple per text |
| `ReplayKey.NoopIdInjective` | executors/src/recovery.rs:171 | one NOOP id per triple |
| `ReplayKey.FamiliesDisjoint` | core/src/recovery.rs:1837-1863 | no Solana or account-abstraction key is an EOA key, nor another kind's |
| `Shutdown.ShutdownBarrier` | core/src/recovery.rs:684-728 | once close_and_drain has returned nothing owned runs, no commit follows and every registration is Busy, for every interleaving |
| `Shutdown.DrainWaitsForAll` | core/src/recovery.rs:716-721 | for every interleaving, an operation registered before a drain gets the lock has ended by then, and has finished if it ran |
| `Shutdown.PermitHeldUntilEnd` | core/src/recovery.rs:936-948 | for every interleaving, an admission permit is held exactly until its operation ends, cancelled caller or not, and at most 64 are held |
| `Rlp.ReadItem` | scripts/testnet_evm_write.py:84-115 | the recursive descent with its list loop computes the decoding function |
| `Rlp.Rlp` | scripts/testnet_evm_write.py:82-119 | trailing bytes are refused |
| `Rlp.DecodeInvertsEncode` | scripts/capacity_faults.py:833-846 | decoding an encoding gives the nested value exactly when it nests no deeper than the limit |
| `Rlp.DecodeEncoded` | scripts/testnet_evm_write.py:84-115 | wherever an encoding stands in the data, decoding there returns its value and its end |
| `Rlp.EncodeInjective` | scripts/capacity_faults.py:833-846 | two values with one encoding are the same nested byte strings |
| `Rlp.EncodePrefixFree` | scripts/capacity_faults.py:833-846 | no encoding is a proper prefix of another |
| `EvmWire.WireInjective` | scripts/capacity_faults.py:849-877 | the wire determines the transaction type and every signed field |
| `EvmWire.SameWireSameFields` | scripts/capacity_faults.py:880-883 | two node transactions that match one durable wire agree on type and all signed fields |
| `EvmWire.LegacyWireReadsBack` | scripts/capacity_faults.py:864-867 | reading a legacy wire back gives its nine fields in order |
| `EvmWire.TypedWireReadsBack` | scripts/capacity_faults.py:864-877 | reading a typed wire back after its type byte gives its fields in order, within the decoder's depth |
| `OpenLoop.Schedule` | scripts/capacity_campaign.py:282-318 | every slot of every chain is disposed of exactly once, for one reason, in deadline order and index order per chain, with at most one heap entry per chain |
| `OpenLoop.Turn` | scripts/capacity_campaign.py:294-314 | one turn handles or drops the least entry, keeps the loop invariant and lowers the work left |
| `OpenLoop.Dispose` | scripts/capacity_campaign.py:298-311 | nothing later than the tolerance is dispatched and lag is never claimed without it |
| `OpenLoop.EqualRatesNeverCoincide` | scripts/capacity_campaign.py:258-260 | two chains of equal rate never have slots due at the same instant |
| `ResourcePolicy.SetUp` | scripts/capacity_resource_guard.py:114-134 | a policy comes to be exactly when budgets, schedule and margin are valid, with no stop, no reduced deadline and an empty history; otherwise the first failing check is named |
| `ResourcePolicy.Policy.BeginReconciliation` | scripts/capacity_resource_guard.py:136-147 | shortens the deadline once, only after setup, never extending it and clearing no stop |
| `ResourcePolicy.Policy.FailedProbe` | scripts/capacity_resource_guard.py:149-152 | the first stop is kept for ever |
| `ResourcePolicy.Policy.Assess` | scripts/capacity_resource_guard.py:154-226 | what is reported equals recomputing over the whole sample history, a stop is never cleared, and it stops exactly when the deadline is past, a filesystem changed or a reserve is short |
| `ResourcePolicy.PruneLeft` | scripts/capacity_resource_guard.py:188-189 | the pruning loop computes the pruned deque |
| `ResourcePolicy.PruneIsInWindow` | scripts/capacity_resource_guard.py:186-189 | on contiguous intervals pruning keeps exactly those that reach into the window |
| `ResourcePolicy.NextWindow` | scripts/capacity_resource_guard.py:182-189 | appending an interval and pruning gives the window of the longer history |
| `ResourcePolicy.ReadyWindow` | scripts/capacity_resource_guard.py:190-197 | a ready window was observed for exactly its length and its sustained rate is at most its recent peak |
| `ResourcePolicy.ReadyDetail` | scripts/capacity_resource_guard.py:190-221 | the same of every reported detail |
| `ResourcePolicy.RequiredIsExact` | scripts/capacity_resource_guard.py:198-204 | the reserve is met exactly when what is left after growth, shutdown and setup stays above both floors |
| `ResourcePolicy.ConsumptionCoversLoss` | scripts/capacity_resource_guard.py:182-194 | depletion counts every loss and no gain |
| `Resp.ReadFrame` | test-support/redis_reply_loss.rs:108-144 | the loop with its counter computes the frame function |
| `Resp.FrameIsOneValue` | test-support/redis_reply_loss.rs:106-144 | whatever follows, the reader returns exactly one value's serialisation if and only if it carries no attribute prefix, and otherwise stops inside it |
| `Resp.FramePasses` | test-support/redis_reply_loss.rs:111-142 | with enough counted values to come the reader passes over one value and nothing else |

## Left out

- Text encodings: ids, keys, payloads and frames are sequences of characters and lengths count characters, where the program counts UTF-8 bytes.
- JSON floating-point numbers: payload numbers are integers; hashes written as JSON arrays are not decoded.
- Physical storage: pragmas, file permissions, the operating-system lock, fsync and the index creation at start-up, whose extra health gate is merged with the first one.
- Redis transport: connection set-up, time-outs and the `SCAN` loop; the empty-namespace check looks at the marker key only, and the `SET NX` that follows is modelled exactly.
- Error messages: causes of `RecoveryRequired` and `Invalid` are not told apart.
- Fairness lanes, health slots, metrics, export and status counts: they decide when an operation runs, not what it does.
- `latest_eoa_attempt` and the read-only status queries, which would only add easy members.
- Ancestry between successive stored checkpoints: continuity is checked before the new evidence is read, so ancestry is claimed only for a receipt and its own checkpoint.
- EoaBoundary.BeforeEoa: the fields and the recovered signer of a signed wire come with it as values; that encoded wires determine their fields is stated separately, by `EvmWire.WireInjective`.
- Rlp.Rlp: bodies of 2^64 bytes or more have no encoding here.
- EvmWire.SameWireSameFields: hex texts are already numbers and byte strings, and the returned hash and recovered sender are taken as the node gives them.
- OpenLoop.Schedule: times are real numbers, the heap is a sequence from which the least entry is taken, and sleeping has no effect on the clock readings, which are arbitrary.
- ResourcePolicy.Policy.Assess: rates and times are real numbers; stop reasons are a set rather than a list.
- Shutdown.ShutdownBarrier: a registration may also succeed while a drain is only waiting, which is more than the lock allows.
- The Redis queue, the EOA worker flow, signers, credentials, chain configuration, ERC-4337 hashing, ERC-6492 encoding, process orchestration and the TypeScript clean-up scripts.
