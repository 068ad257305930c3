/** Safety over whole runs: any number of requests, crashes, Redis faults, reattachments and recoveries. */
module Runs {
  import opened Wrappers
  import opened Ledger
  import opened LedgerInvariant
  import opened Protocol
  import opened ProtocolInvariant

  /** A run of the protocol from any safe state, such as a freshly initialised deployment. */
  ghost predicate SafeRun(lib: Libraries, states: seq<World>, events: seq<Event>) {
    IsRun(lib, states, events) && Safe(lib, states[0])
  }

  lemma InitializedSafe(lib: Libraries, deployment: string, namespace: Option<string>, redis: Redis)
    ensures Safe(lib, Initialized(deployment, namespace, redis))
  {
    InitialOk(lib, deployment, namespace, redis.runId);
  }

  /** The invariant holds in every state of every run. */
  lemma {:induction false} RunSafe(lib: Libraries, states: seq<World>, events: seq<Event>, i: nat)
    requires SafeRun(lib, states, events) && i < |states|
    ensures Safe(lib, states[i])
    ensures i + 1 < |states| ==> Steps(states[i], states[i + 1])
  {
    hide Safe, Steps, Next, Enabled;
    if i > 0 {
      RunSafe(lib, states, events, i - 1);
      assert StepAt(lib, states, events, i - 1);
      NextSafe(lib, states[i - 1], events[i - 1]);
    }
    if i + 1 < |states| {
      assert StepAt(lib, states, events, i);
      NextSafe(lib, states[i], events[i]);
    }
  }

  /** From any state to any later one the ledger only evolves, and nothing recorded is lost. */
  lemma {:induction false} RunEvolves(lib: Libraries, states: seq<World>, events: seq<Event>, i: nat, j: nat)
    requires SafeRun(lib, states, events) && i <= j < |states|
    ensures Evolves(states[i].ledger, states[j].ledger)
    ensures Prefix(states[i].grants, states[j].grants) && states[i].written <= states[j].written
            && states[i].net <= states[j].net
    decreases j
  {
    hide Safe, IsRun, Evolves, GrantStep;
    if i == j {
      EvolvesRefl(states[i].ledger);
    } else {
      RunEvolves(lib, states, events, i, j - 1);
      RunSafe(lib, states, events, j - 1);
      EvolvesTrans(states[i].ledger, states[j - 1].ledger, states[j].ledger);
      PrefixTrans(states[i].grants, states[j - 1].grants, states[j].grants);
    }
  }

  // ----- the ways a step can change the ledger -----

  ghost predicate LedgerMove(lib: Libraries, w: World, b: Ledger) {
    || b == w.ledger
    || (w.pc.Transacting? && b == Transact(lib, w.ledger, w.pc.req).ledger)
    || (w.pc.Acknowledging? && b == w.ledger.(pending := None))
    || ((w.pc.Halting? || w.pc.ReattachFencing?) && b == Halted(w.ledger, w.pc.reason))
    || (w.pc.Down? && b == Halted(w.ledger, OperatorQuarantine))
    || ((w.pc.InitReleasing? || w.pc.RecoverReleasing?) && b == Unhalted(w.ledger))
    || (w.pc.ReattachCommitting? && b == TxReattach(w.ledger, w.pc.run))
    || (w.pc.RecoverCommitting? && b == TxRecover(w.ledger, w.pc.namespace, w.pc.run))
  }

  lemma ProceedKeepsLedger(w: World, k: Then)
    ensures Proceed(w, k).ledger == w.ledger
  {}

  lemma ObservingKeepsLedger(w: World, k: Then, c: Control, q: Option<PendingUpdate>, fault: Fault)
    ensures ActObserve(w, k, c, q, fault).ledger == w.ledger && ActSettle(w, k, c, fault).ledger == w.ledger
  {
    hide Observe, Proceed;
    ProceedKeepsLedger(w.(seen := Some(c)), k);
  }

  lemma GateKeepsLedger(w: World, k: Then, c: Control, fault: Fault)
    ensures ActGate(w, k, fault).ledger == w.ledger && ActMirror(w, k, c, fault).ledger == w.ledger
  {
    hide LoadPending;
  }

  lemma PublishingKeepsLedger(w: World, k: Then, c: Control, p: PendingUpdate, fault: Fault, next: Pc)
    ensures ActPublish(w, k, c, p, fault).ledger == w.ledger && ActConfirm(w, k, c, p, fault).ledger == w.ledger
    ensures ActSetNx(w, next, fault).ledger == w.ledger
  {
    hide Confirm, Effective;
  }

  lemma ReattachMove(lib: Libraries, w: World, fault: Fault)
    requires IsReattach(w.pc)
    ensures LedgerMove(lib, w, ActReattach(w, fault).ledger)
  {
    hide LoadPending, ReattachAllowed, TxReattach, Transact, TxRecover;
  }

  lemma RecoverMove(lib: Libraries, w: World, fault: Fault)
    requires IsRecover(w.pc)
    ensures LedgerMove(lib, w, ActRecover(w, fault).ledger)
  {
    hide LoadPending, RecoverAllowed, TxReattach, Transact, TxRecover, Effective;
  }

  lemma WritingMoves(lib: Libraries, w: World, k: Then, c: Control, p: PendingUpdate, req: Request, reason: Reason,
                     fault: Fault)
    ensures ActTransact(lib, w, req, fault).ledger in {w.ledger, Transact(lib, w.ledger, req).ledger}
    ensures ActAcknowledge(w, k, c, p, fault).ledger in {w.ledger, w.ledger.(pending := None)}
    ensures ActHalt(w, k, reason, fault).ledger in {w.ledger, Halted(w.ledger, reason)}
    ensures ActRelease(w, fault).ledger in {w.ledger, Unhalted(w.ledger)}
  {
    hide Transact, PendingValid, GrantOf, Halted, Unhalted, Starting;
  }

  predicate OnlyReads(pc: Pc) {
    pc.Gate? || pc.Observing? || pc.Publishing? || pc.Confirming? || pc.Settling? || pc.MirrorReading?
    || pc.InitPublishing?
  }

  lemma ReadingKeepsLedger(lib: Libraries, w: World, fault: Fault)
    requires OnlyReads(w.pc)
    ensures ActStep(lib, w, fault).ledger == w.ledger
  {
    hide ActGate, ActObserve, ActPublish, ActConfirm, ActSettle, ActMirror, ActSetNx, Transact;
    var c, u := w.ledger.control, Between(w.ledger.control, w.ledger.control);
    match w.pc
    case Gate(k) => GateKeepsLedger(w, k, c, fault);
    case Observing(k, c, q) => ObservingKeepsLedger(w, k, c, q, fault);
    case Publishing(k, c, p) => PublishingKeepsLedger(w, k, c, p, fault, Down);
    case Confirming(k, c, p) => PublishingKeepsLedger(w, k, c, p, fault, Down);
    case Settling(k, c) => ObservingKeepsLedger(w, k, c, None, fault);
    case MirrorReading(k, c) => GateKeepsLedger(w, k, c, fault);
    case InitPublishing => PublishingKeepsLedger(w, Serve(Health), c, u, fault, InitReleasing);
  }

  lemma ActMove(lib: Libraries, w: World, fault: Fault)
    ensures LedgerMove(lib, w, ActStep(lib, w, fault).ledger)
  {
    if OnlyReads(w.pc) {
      hide ActStep;
      ReadingKeepsLedger(lib, w, fault);
    } else {
      hide ActReattach, ActRecover, ActTransact, ActAcknowledge, ActHalt, ActRelease, Transact, TxRecover, TxReattach,
           Halted, Unhalted;
      var c, u := w.ledger.control, Between(w.ledger.control, w.ledger.control);
      match w.pc
      case Transacting(req) => WritingMoves(lib, w, Serve(req), c, u, req, Initializing, fault);
      case Acknowledging(k, c, p) => WritingMoves(lib, w, k, c, p, k.req, Initializing, fault);
      case Halting(k, reason) => WritingMoves(lib, w, k, c, u, k.req, reason, fault);
      case InitReleasing => WritingMoves(lib, w, Serve(Health), c, u, Health, Initializing, fault);
      case _ =>
        if IsReattach(w.pc) { ReattachMove(lib, w, fault); } else if IsRecover(w.pc) { RecoverMove(lib, w, fault); }
    }
  }

  /** Nothing outside the process writes the ledger, except the operator's halt. */
  lemma EnvironmentKeepsLedger(lib: Libraries, w: World, e: Event)
    requires Enabled(w, e) && !e.Act?
    ensures Next(lib, w, e).ledger == w.ledger
            || (e.OperatorHalt? && w.pc.Down? && Next(lib, w, e).ledger == Halted(w.ledger, OperatorQuarantine))
  {
    hide ActStep, Precheck, Effective;
  }

  lemma NextMove(lib: Libraries, w: World, e: Event)
    requires Enabled(w, e)
    ensures LedgerMove(lib, w, Next(lib, w, e).ledger)
  {
    hide ActStep, Transact, TxRecover, TxReattach, Enabled;
    if e.Act? { ActMove(lib, w, e.fault); } else { EnvironmentKeepsLedger(lib, w, e); }
  }

  // ----- what the run gives about single tables -----

  lemma RunTables(lib: Libraries, states: seq<World>, events: seq<Event>, i: nat, j: nat)
    requires SafeRun(lib, states, events) && i <= j < |states|
    ensures TablesGrow(states[i].ledger, states[j].ledger)
  {
    hide Safe, IsRun, TablesGrow;
    RunEvolves(lib, states, events, i, j);
  }

  lemma RunInv(lib: Libraries, states: seq<World>, events: seq<Event>, i: nat)
    requires SafeRun(lib, states, events) && i < |states|
    ensures TablesOk(lib, states[i].ledger) && ControlOk(states[i].ledger)
  {
    hide IsRun, Steps, TablesOk, ControlOk, NetOk, GrantsOk, PcOk;
    RunSafe(lib, states, events, i);
  }

  // ----- one intent per nonce -----

  /** The key a grant was given for. */
  ghost predicate GrantsKey(l: Ledger, g: Grant, key: string) {
    if g.Ordinary? then g.key == key else Recorded(l, g.id, key, g.payload)
  }

  /** Over every run, at most one id is ever granted a replay key, and the owner of a bound key never changes. */
  lemma OneIntentPerKey(lib: Libraries, states: seq<World>, events: seq<Event>, i: nat, j: nat, g: Grant, h: Grant,
                        key: string)
    requires SafeRun(lib, states, events) && i < |states| && j < |states|
    requires g in states[i].grants && h in states[j].grants
    requires GrantsKey(states[i].ledger, g, key) && GrantsKey(states[j].ledger, h, key)
    ensures g.id == h.id
  {
    var m := if i < j then j else i;
    GrantBound(lib, states, events, i, m, g, key);
    GrantBound(lib, states, events, j, m, h, key);
    RunSafe(lib, states, events, m);
    assert KeysUnique(states[m].ledger.admissions);
  }

  lemma GrantBound(lib: Libraries, states: seq<World>, events: seq<Event>, i: nat, m: nat, g: Grant, key: string)
    requires SafeRun(lib, states, events) && i <= m < |states| && g in states[i].grants
             && GrantsKey(states[i].ledger, g, key)
    ensures Holds(states[m].ledger.admissions, g.id, key)
  {
    RunSafe(lib, states, events, i);
    RunEvolves(lib, states, events, i, m);
    var n :| 0 <= n < |states[i].grants| && states[i].grants[n] == g;
    assert Durable(states[i].ledger, g);
    assert Holds(states[i].ledger.admissions, g.id, key);
    assert AdmissionGrows(states[i].ledger.admissions[g.id], states[m].ledger.admissions[g.id]);
  }

  /** A bound key keeps its owner, and every attempt row carries the key its admission is bound to. */
  lemma KeyOwnerNeverChanges(lib: Libraries, states: seq<World>, events: seq<Event>, i: nat, j: nat, id: string,
                             other: string, key: string)
    requires SafeRun(lib, states, events) && i <= j < |states|
    requires Holds(states[i].ledger.admissions, id, key)
    ensures Holds(states[j].ledger.admissions, other, key) <==> other == id
    ensures forall row :: row in states[j].ledger.attempts ==> Holds(states[j].ledger.admissions, row.id, row.replayKey)
  {
    RunSafe(lib, states, events, j);
    RunEvolves(lib, states, events, i, j);
    assert AdmissionGrows(states[i].ledger.admissions[id], states[j].ledger.admissions[id]);
    assert Holds(states[j].ledger.admissions, id, key);
    assert KeysUnique(states[j].ledger.admissions);
    forall row | row in states[j].ledger.attempts ensures Holds(states[j].ledger.admissions, row.id, row.replayKey) {
      assert RowOk(states[j].ledger.admissions, row);
    }
  }

  // ----- life cycle -----

  /** An id's intent never changes, and its state and attempts are frozen once it leaves Admitted. */
  lemma AdmissionLifeCycle(lib: Libraries, states: seq<World>, events: seq<Event>, i: nat, j: nat, id: string)
    requires SafeRun(lib, states, events) && i <= j < |states| && id in states[i].ledger.admissions
    ensures id in states[j].ledger.admissions
    ensures var a, b := states[i].ledger.admissions[id], states[j].ledger.admissions[id];
            && a.kind == b.kind && a.fingerprint == b.fingerprint && a.payload == b.payload
            && (a.state == b.state || (a.state.Admitted? && !b.state.Admitted?))
            && (!a.state.Admitted? ==>
              AttemptsOf(states[j].ledger.attempts, id) == AttemptsOf(states[i].ledger.attempts, id))
  {
    RunEvolves(lib, states, events, i, j);
    assert AdmissionGrows(states[i].ledger.admissions[id], states[j].ledger.admissions[id]);
    if !states[i].ledger.admissions[id].state.Admitted? {
      FrozenAttempts(states[i].ledger.attempts, states[j].ledger.attempts, id);
    }
  }

  lemma {:induction false} FrozenAttempts(a: seq<Attempt>, b: seq<Attempt>, id: string)
    requires Prefix(a, b) && forall i :: |a| <= i < |b| ==> b[i].id != id
    ensures AttemptsOf(b, id) == AttemptsOf(a, id)
  {
    if a == [] {
      NoAttempts(b, id);
    } else {
      assert a[1..] == b[1..][..|a| - 1] by { assert b[..|a|][1..] == b[1..|a|]; }
      FrozenAttempts(a[1..], b[1..], id);
      assert a[0] == b[..|a|][0];
    }
  }

  lemma {:induction false} NoAttempts(rows: seq<Attempt>, id: string)
    requires forall i :: 0 <= i < |rows| ==> rows[i].id != id
    ensures AttemptsOf(rows, id) == []
  {
    if rows != [] { NoAttempts(rows[1..], id); }
  }

  /** Every successful reservation of an id hands back the payload it was first admitted with. */
  lemma ReservationReturnsFirstPayload(lib: Libraries, states: seq<World>, events: seq<Event>, i: nat, j: nat,
                                       req: Request)
    requires SafeRun(lib, states, events) && i <= j < |states| && req.Reserve? && req.id in states[i].ledger.admissions
    requires Transact(lib, states[j].ledger, req).reply.Success?
    ensures Transact(lib, states[j].ledger, req).reply.value.Reserved?
    ensures Transact(lib, states[j].ledger, req).reply.value.payload == states[i].ledger.admissions[req.id].payload
    ensures Transact(lib, states[j].ledger, req).ledger == states[j].ledger
  {
    AdmissionLifeCycle(lib, states, events, i, j, req.id);
  }

  // ----- disaster recovery -----

  /** A step grants nothing to an id that is not Admitted when it ends. */
  lemma NoGrantToClosed(w: World, b: World, id: string)
    requires GrantStep(w, b) && Prefix(w.grants, b.grants) && id in b.ledger.admissions
             && !b.ledger.admissions[id].state.Admitted?
    ensures |w.grants| <= |b.grants|
    ensures forall n :: 0 <= n < |w.grants| ==> b.grants[n] == w.grants[n]
    ensures forall n :: |w.grants| <= n < |b.grants| ==> b.grants[n].id != id
  {
    hide Durable;
    assert forall n :: 0 <= n < |w.grants| ==> b.grants[..|w.grants|][n] == b.grants[n];
  }

  /** Once an id has left Admitted, no grant for it is ever added. */
  lemma {:induction false} NoGrantAfterAdmitted(lib: Libraries, states: seq<World>, events: seq<Event>, i: nat,
                                                j: nat, id: string)
    requires SafeRun(lib, states, events) && i <= j < |states|
    requires id in states[i].ledger.admissions && !states[i].ledger.admissions[id].state.Admitted?
    ensures |states[i].grants| <= |states[j].grants|
    ensures forall n :: |states[i].grants| <= n < |states[j].grants| ==> states[j].grants[n].id != id
    decreases j
  {
    hide SafeRun, Safe, GrantStep, Evolves, Prefix;
    if i < j {
      AdmissionLifeCycle(lib, states, events, i, j, id);
      NoGrantAfterAdmitted(lib, states, events, i, j - 1, id);
      RunSafe(lib, states, events, j - 1);
      NoGrantToClosed(states[j - 1], states[j], id);
    }
  }

  /** A recovery at step i: the ledger is rewritten into a new epoch. */
  predicate RecoversAt(states: seq<World>, events: seq<Event>, i: nat) {
    i + 1 < |states| && i < |events| && events[i].Act? && states[i].pc.RecoverCommitting?
    && states[i + 1].ledger != states[i].ledger
  }

  /** After a recovery, no id attempted before it is ever granted again, and its nonce is never given to another id. */
  lemma RecoveryNeverResends(lib: Libraries, states: seq<World>, events: seq<Event>, i: nat, j: nat, id: string)
    requires SafeRun(lib, states, events) && RecoversAt(states, events, i) && i < j < |states|
    requires HasAttempt(states[i].ledger.attempts, id)
    ensures states[j].ledger.control.epoch > states[i].ledger.control.epoch && id in states[i].ledger.admissions
    ensures id in states[j].ledger.admissions && !states[j].ledger.admissions[id].state.Admitted?
    ensures forall n :: |states[i].grants| <= n < |states[j].grants| ==> states[j].grants[n].id != id
    ensures states[i].ledger.admissions[id].replayKey.Some? &&
            forall other ::
              Holds(states[j].ledger.admissions, other, states[i].ledger.admissions[id].replayKey.value) ==> other == id
  {
    hide Safe, SafeRun, Evolves, Steps, Next, TxRecover;
    var row := AttemptedRow(lib, states, events, i, id);
    RunStep(lib, states, events, i);
    RecoverStep(lib, states[i], events[i].fault);
    AdmissionLifeCycle(lib, states, events, i + 1, j, id);
    TokensIncrease(lib, states, events, i + 1, j);
    NoGrantAfterAdmitted(lib, states, events, i + 1, j, id);
    forall other | Holds(states[j].ledger.admissions, other, row.replayKey) ensures other == id {
      KeyOwnerNeverChanges(lib, states, events, i, j, id, other, row.replayKey);
    }
  }

  lemma AttemptedRow(lib: Libraries, states: seq<World>, events: seq<Event>, i: nat, id: string) returns (row: Attempt)
    requires SafeRun(lib, states, events) && i < |states| && HasAttempt(states[i].ledger.attempts, id)
    ensures row in states[i].ledger.attempts && row.id == id && Holds(states[i].ledger.admissions, id, row.replayKey)
  {
    row :| row in states[i].ledger.attempts && row.id == id;
    hide SafeRun, ControlOk;
    RunInv(lib, states, events, i);
    assert RowOk(states[i].ledger.admissions, row);
  }

  lemma RunStep(lib: Libraries, states: seq<World>, events: seq<Event>, i: nat)
    requires SafeRun(lib, states, events) && i < |events|
    ensures Safe(lib, states[i]) && Enabled(states[i], events[i]) && states[i + 1] == Next(lib, states[i], events[i])
  {
    hide Safe, Next, Enabled;
    assert StepAt(lib, states, events, i);
    RunSafe(lib, states, events, i);
  }

  /** Recovery quarantines everything attempted that is not terminal. */
  lemma RecoverStep(lib: Libraries, w: World, fault: Fault)
    requires w.pc.RecoverCommitting? && Next(lib, w, Act(fault)).ledger != w.ledger
    ensures var b := Next(lib, w, Act(fault));
            && b.ledger == TxRecover(w.ledger, w.pc.namespace, w.pc.run) && b.grants == w.grants
            && b.ledger.control.epoch == w.ledger.control.epoch + 1
            && forall id :: id in w.ledger.admissions && HasAttempt(w.ledger.attempts, id) ==>
                 id in b.ledger.admissions && !b.ledger.admissions[id].state.Admitted?
  {}

  // ----- fences -----

  /** A committed mismatch, storage, terminal or operator halt is left only by recovery into a later epoch. */
  lemma FenceNeverCleared(lib: Libraries, states: seq<World>, events: seq<Event>, i: nat, j: nat)
    requires SafeRun(lib, states, events) && i <= j < |states| && Fenced(states[i].ledger.control)
    ensures states[j].ledger.control.epoch > states[i].ledger.control.epoch ||
            (states[j].ledger.control.halted && states[j].ledger.control.reason == states[i].ledger.control.reason)
  {
    RunEvolves(lib, states, events, i, j);
  }

  lemma EpochStep(lib: Libraries, w: World, e: Event)
    requires Safe(lib, w) && Enabled(w, e) && Next(lib, w, e).ledger.control.epoch != w.ledger.control.epoch
    ensures e.Act? && w.pc.RecoverCommitting? && RecoverAllowed(w.ledger, w.pc.namespace)
    ensures Next(lib, w, e).ledger == TxRecover(w.ledger, w.pc.namespace, w.pc.run)
  {
    hide Inv, NetOk, GrantsOk, ThenOk, RecoverAllowed, Recovering, ReattachAllowed, Next, Enabled, Transact;
    assert w.pc.RecoverCommitting? ==> RecoverAllowed(w.ledger, w.pc.namespace);
    if !e.Act? { EnvironmentKeepsLedger(lib, w, e); }
    NextMove(lib, w, e);
    if w.pc.Transacting? { TransactMoved(lib, w.ledger, w.pc.req); }
  }

  /** The epoch rises only when recovery commits, and then the namespace changes with it. */
  lemma EpochChangesOnlyByRecovery(lib: Libraries, states: seq<World>, events: seq<Event>, i: nat)
    requires SafeRun(lib, states, events) && i < |events|
    requires states[i + 1].ledger.control.epoch != states[i].ledger.control.epoch
    ensures RecoversAt(states, events, i) && RecoverAllowed(states[i].ledger, states[i].pc.namespace)
    ensures states[i + 1].ledger.control.namespace != states[i].ledger.control.namespace
    ensures states[i + 1].ledger.control.halted && states[i + 1].ledger.control.checkpoint == 0
  {
    hide Safe, Steps, Next, Enabled;
    RunStep(lib, states, events, i);
    EpochStep(lib, states[i], events[i]);
  }

  /** A contradictory witness halts the ledger for ever: not even recovery is allowed. */
  lemma ContradictionIsForever(lib: Libraries, states: seq<World>, events: seq<Event>, i: nat, j: nat,
                               namespace: Option<string>)
    requires SafeRun(lib, states, events) && i <= j < |states| && Conflicted(states[i].ledger.evidence)
    ensures states[j].ledger.control.halted && states[j].ledger.control.reason == Some(TerminalConflict)
    ensures !RecoverAllowed(states[j].ledger, namespace) && !ReattachAllowed(states[j].ledger.control)
    ensures states[j].ledger.control.epoch == states[i].ledger.control.epoch
    decreases j
  {
    hide Safe, StepAt, ControlOk, Conflicted, ReattachAllowed, RecoverAllowed;
    ConflictHolds(lib, states, events, i, j, namespace);
    if i < j {
      ContradictionIsForever(lib, states, events, i, j - 1, namespace);
      if states[j].ledger.control.epoch != states[j - 1].ledger.control.epoch {
        EpochChangesOnlyByRecovery(lib, states, events, j - 1);
        ConflictHolds(lib, states, events, i, j - 1, states[j - 1].pc.namespace);
      }
    }
  }

  lemma ConflictHolds(lib: Libraries, states: seq<World>, events: seq<Event>, i: nat, j: nat, namespace: Option<string>)
    requires SafeRun(lib, states, events) && i <= j < |states| && Conflicted(states[i].ledger.evidence)
    ensures states[j].ledger.control.halted && states[j].ledger.control.reason == Some(TerminalConflict)
    ensures !RecoverAllowed(states[j].ledger, namespace) && !ReattachAllowed(states[j].ledger.control)
  {
    hide SafeRun, TablesOk, AdmissionsGrow, AttemptsGrow, CheckpointsGrow, SolanaGrows;
    RunTables(lib, states, events, i, j);
    ConflictedPrefix(states[i].ledger.evidence, states[j].ledger.evidence);
    RunInv(lib, states, events, j);
  }

  lemma ConflictedPrefix(a: seq<Witness>, b: seq<Witness>)
    requires Prefix(a, b) && Conflicted(a)
    ensures Conflicted(b)
  {
    var i, j :| 0 <= i < j < |a| && a[i].id == a[j].id;
    assert b[..|a|][i] == b[i] && b[..|a|][j] == b[j];
  }

  // ----- terminal evidence -----

  function WitnessCount(rows: seq<Witness>, id: string): nat {
    if rows == [] then 0 else (if rows[0].id == id then 1 else 0) + WitnessCount(rows[1..], id)
  }

  lemma {:induction false} CountPositive(rows: seq<Witness>, id: string)
    ensures WitnessCount(rows, id) > 0 <==> HasWitness(rows, id)
  {
    if rows != [] {
      CountPositive(rows[1..], id);
      if HasWitness(rows, id) && rows[0].id != id {
        var w :| w in rows && w.id == id;
        assert w in rows[1..];
      }
    }
  }

  lemma {:induction false} CountConflict(rows: seq<Witness>, id: string)
    requires !Conflicted(rows)
    ensures WitnessCount(rows, id) <= 1
  {
    if rows != [] {
      CountConflict(rows[1..], id);
      CountPositive(rows[1..], id);
    }
  }

  /** In every un-halted state, an id has exactly one witness if it is terminal and none otherwise. */
  lemma OneWitnessIffTerminal(lib: Libraries, states: seq<World>, events: seq<Event>, i: nat, id: string)
    requires SafeRun(lib, states, events) && i < |states| && !states[i].ledger.control.halted
    ensures WitnessCount(states[i].ledger.evidence, id) ==
              (if IsTerminal(states[i].ledger.admissions, id) then 1 else 0)
  {
    RunSafe(lib, states, events, i);
    var l := states[i].ledger;
    assert WitnessOk(l.admissions, l.evidence) && !Conflicted(l.evidence);
    CountPositive(l.evidence, id);
    CountConflict(l.evidence, id);
    if HasWitness(l.evidence, id) { assert IsTerminal(l.admissions, id); }
  }

  /** The first witness of an id is never replaced. */
  lemma FirstWitnessNeverReplaced(lib: Libraries, states: seq<World>, events: seq<Event>, i: nat, j: nat, id: string)
    requires SafeRun(lib, states, events) && i <= j < |states| && FirstWitness(states[i].ledger.evidence, id).Some?
    ensures FirstWitness(states[j].ledger.evidence, id) == FirstWitness(states[i].ledger.evidence, id)
  {
    RunEvolves(lib, states, events, i, j);
    FirstWitnessPrefix(states[i].ledger.evidence, states[j].ledger.evidence, id);
  }

  lemma FirstWitnessPrefix(a: seq<Witness>, b: seq<Witness>, id: string)
    requires Prefix(a, b) && FirstWitness(a, id).Some?
    ensures FirstWitness(b, id) == FirstWitness(a, id)
  {
    var i :| 0 <= i < |a| && a[i].id == id && a[i].evidence == FirstWitness(a, id).value && forall j :: 0 <= j < i ==>
        a[j].id != id;
    assert forall j :: 0 <= j < |a| ==> b[j] == b[..|a|][j];
    assert b[i].id == id;
    var k :| 0 <= k < |b| && b[k].id == id && b[k].evidence == FirstWitness(b, id).value && forall j :: 0 <= j < k ==>
        b[j].id != id;
    assert k == i;
  }

  // ----- finality checkpoints -----

  /**
   * Over every interleaving, a chain's stored height never falls, its policy and the row at a height never change,
   * and a chain halt is never removed.
   */
  lemma CheckpointMonotone(lib: Libraries, states: seq<World>, events: seq<Event>, i: nat, j: nat, chain: string)
    requires SafeRun(lib, states, events) && i <= j < |states|
    ensures states[i].ledger.halts <= states[j].ledger.halts
    ensures chain in states[i].ledger.checkpoints ==>
              && chain in states[j].ledger.checkpoints
              && var a, b := states[i].ledger.checkpoints[chain], states[j].ledger.checkpoints[chain];
                 && a.checkpointNumber <= b.checkpointNumber && a.policy == b.policy
                 && (a.checkpointNumber == b.checkpointNumber ==> a == b)
  {
    RunEvolves(lib, states, events, i, j);
  }

  // ----- tokens -----

  /** Tokens never go back, and every committed move of the checkpoint strictly raises them: none is issued twice. */
  lemma TokensIncrease(lib: Libraries, states: seq<World>, events: seq<Event>, i: nat, j: nat)
    requires SafeRun(lib, states, events) && i <= j < |states|
    ensures TokenAtMost(TokenOf(states[i].ledger.control), TokenOf(states[j].ledger.control))
    ensures i < j && states[i + 1].ledger.pending.Some? && states[i + 1].ledger.pending != states[i].ledger.pending ==>
              && TokenLess(TokenOf(states[i].ledger.control), TokenOf(states[j].ledger.control))
              && states[i].ledger.pending.None?
              && states[i + 1].ledger.pending.value.previous == TokenOf(states[i].ledger.control)
  {
    RunEvolves(lib, states, events, i, j);
    if i < j && states[i + 1].ledger.pending.Some? && states[i + 1].ledger.pending != states[i].ledger.pending {
      RecordedMove(lib, states, events, i);
      RunEvolves(lib, states, events, i + 1, j);
    }
  }

  lemma PendingStep(lib: Libraries, w: World, e: Event)
    requires Safe(lib, w) && Enabled(w, e)
    requires Next(lib, w, e).ledger.pending.Some? && Next(lib, w, e).ledger.pending != w.ledger.pending
    ensures e.Act? && w.pc.Transacting? && Transact(lib, w.ledger, w.pc.req).advanced
    ensures Next(lib, w, e).ledger == Transact(lib, w.ledger, w.pc.req).ledger
  {
    hide Safe, Next, Enabled, Transact;
    if !e.Act? { EnvironmentKeepsLedger(lib, w, e); }
    NextMove(lib, w, e);
    if w.pc.Transacting? { TransactMoved(lib, w.ledger, w.pc.req); }
  }

  /** Only a committing transaction records a pending transition, and only over an empty slot. */
  lemma RecordedMove(lib: Libraries, states: seq<World>, events: seq<Event>, i: nat)
    requires SafeRun(lib, states, events) && i < |events|
    requires states[i + 1].ledger.pending.Some? && states[i + 1].ledger.pending != states[i].ledger.pending
    ensures states[i].ledger.pending.None?
            && states[i + 1].ledger.pending.value.previous == TokenOf(states[i].ledger.control)
    ensures TokenLess(TokenOf(states[i].ledger.control), TokenOf(states[i + 1].ledger.control))
    ensures states[i].pc.Transacting?
  {
    hide Safe, Steps, Next, Enabled, Transact;
    RunStep(lib, states, events, i);
    PendingStep(lib, states[i], events[i]);
    TransactMoved(lib, states[i].ledger, states[i].pc.req);
  }
}
