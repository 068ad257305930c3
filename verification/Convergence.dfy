/**
 * Crash convergence: wherever a process dies, the next healthy gate finishes the one recorded transition and
 * nothing else, an operation commits at most once, and retrying a committed broadcast succeeds without
 * committing again.
 */
module Convergence {
  import opened Wrappers
  import opened Json
  import opened Ledger
  import opened LedgerInvariant
  import opened Protocol
  import opened ProtocolInvariant
  import opened Publication
  import opened Runs

  /** n actions of the process, none of them failing and nothing happening in between. */
  function RunOk(lib: Libraries, w: World, n: nat): World
    decreases n
  {
    if n == 0 then w else RunOk(lib, ActStep(lib, w, NoFault), n - 1)
  }

  /** The ledger is live and Redis is the same primary, holding the current token or the recorded predecessor. */
  ghost predicate Healthy(w: World) {
    && Live(w) && w.redis.master && w.redis.runId == w.ledger.control.runId && (AtTarget(w) || AtPredecessor(w))
    && (w.ledger.pending.Some? ==> PendingValid(w.ledger.pending.value, w.ledger.control))
  }

  /** Everything but the program point and the published marker is as it was. */
  ghost predicate Unmoved(w: World, b: World) {
    b.ledger == w.ledger && b.grants == w.grants && b.failed == w.failed && b.redis.master == w.redis.master
    && b.redis.runId == w.redis.runId
  }

  lemma GateStep(lib: Libraries, w: World)
    requires Healthy(w) && w.pc.Gate?
    ensures ActStep(lib, w, NoFault) == w.(pc := Observing(w.pc.k, w.ledger.control, w.ledger.pending))
  {}

  lemma ObserveStep(lib: Libraries, w: World)
    requires Healthy(w) && w.pc.Observing? && w.pc.current == w.ledger.control && w.pc.pending == w.ledger.pending
    ensures ActStep(lib, w, NoFault) ==
            if w.ledger.pending.Some? then w.(pc := Publishing(w.pc.k, w.ledger.control, w.ledger.pending.value))
            else Proceed(w.(seen := Some(w.ledger.control)), w.pc.k)
  {
    hide PendingValid, Proceed;
  }

  lemma PublishStep(lib: Libraries, w: World)
    requires Healthy(w) && w.pc.Publishing? && w.pc.current == w.ledger.control && w.ledger.pending == Some(w.pc.update)
    ensures var b := ActStep(lib, w, NoFault);
            Unmoved(w, b) && AtTarget(b) && b.pc == Confirming(w.pc.k, w.ledger.control, w.pc.update)
  {}

  lemma ConfirmStep(lib: Libraries, w: World)
    requires Healthy(w) && AtTarget(w) && w.pc.Confirming? && w.pc.current == w.ledger.control
             && w.ledger.pending == Some(w.pc.update)
    ensures ActStep(lib, w, NoFault) == w.(pc := Acknowledging(w.pc.k, w.ledger.control, w.pc.update))
  {}

  lemma AcknowledgeStep(lib: Libraries, w: World)
    requires Healthy(w) && AtTarget(w) && w.pc.Acknowledging? && w.pc.current == w.ledger.control
             && w.ledger.pending == Some(w.pc.update)
    ensures ActStep(lib, w, NoFault) ==
              w.(ledger := w.ledger.(pending := None), pc := Settling(w.pc.k, w.ledger.control))
  {}

  lemma SettleStep(lib: Libraries, w: World)
    requires Healthy(w) && AtTarget(w) && w.pc.Settling? && w.pc.current == w.ledger.control && w.ledger.pending.None?
    ensures ActStep(lib, w, NoFault) == Proceed(w.(seen := Some(w.ledger.control)), w.pc.k)
  {
    hide Proceed;
  }

  /** Two actions when nothing is pending, six when a transition has to be finished. */
  function GateLength(w: World): nat { if w.ledger.pending.None? then 2 else 6 }

  /** From a healthy state the gate publishes and acknowledges the recorded transition and changes nothing else. */
  lemma GateConverges(lib: Libraries, w: World) returns (b: World)
    requires Healthy(w) && w.pc.Gate?
    ensures RunOk(lib, w, GateLength(w)) == Proceed(b.(seen := Some(w.ledger.control)), w.pc.k)
    ensures b.ledger == w.ledger.(pending := None) && AtTarget(b) && Healthy(b)
    ensures b.grants == w.grants
  {
    hide PendingValid, Proceed, ActStep, LoadPending;
    GateStep(lib, w);
    var s1 := ActStep(lib, w, NoFault);
    ObserveStep(lib, s1);
    if w.ledger.pending.None? {
      b := s1;
      assert RunOk(lib, w, 2) == RunOk(lib, s1, 1) == RunOk(lib, ActStep(lib, s1, NoFault), 0);
    } else {
      var s2 := ActStep(lib, s1, NoFault);
      b := RepairConverges(lib, s2);
      assert RunOk(lib, w, 6) == RunOk(lib, s1, 5) == RunOk(lib, s2, 4);
    }
  }

  lemma RepairConverges(lib: Libraries, w: World) returns (b: World)
    requires Healthy(w) && w.pc.Publishing? && w.pc.current == w.ledger.control && w.ledger.pending == Some(w.pc.update)
    ensures RunOk(lib, w, 4) == Proceed(b.(seen := Some(w.ledger.control)), w.pc.k)
    ensures b.ledger == w.ledger.(pending := None) && AtTarget(b) && Healthy(b)
    ensures b.grants == w.grants
  {
    hide PendingValid, Proceed, ActStep, LoadPending;
    PublishStep(lib, w);
    var s1 := ActStep(lib, w, NoFault);
    ConfirmStep(lib, s1);
    var s2 := ActStep(lib, s1, NoFault);
    AcknowledgeStep(lib, s2);
    var s3 := ActStep(lib, s2, NoFault);
    SettleStep(lib, s3);
    var s4 := ActStep(lib, s3, NoFault);
    b := s3;
    assert RunOk(lib, w, 4) == RunOk(lib, s1, 3) == RunOk(lib, s2, 2) == RunOk(lib, s3, 1) == RunOk(lib, s4, 0);
  }

  lemma RunOkAdd(lib: Libraries, w: World, n: nat, m: nat)
    ensures RunOk(lib, w, n + m) == RunOk(lib, RunOk(lib, w, n), m)
    decreases n
  {
    hide ActStep;
    if n > 0 { RunOkAdd(lib, ActStep(lib, w, NoFault), n - 1, m); }
  }

  /** A dead process, restarted against the configured namespace. */
  function Restarted(lib: Libraries, w: World): World {
    Next(lib, Next(lib, w, Crash), Open(w.ledger.control.namespace))
  }

  /**
   * Wherever the process dies, a restart against an intact Redis ends with marker = token and nothing pending, and
   * moves no checkpoint of its own.
   */
  lemma CrashConverges(lib: Libraries, w: World)
    requires Inv(lib, w.ledger) && w.ledger.control.schema == SCHEMA && !w.ledger.control.halted
    requires w.redis.master && w.redis.runId == w.ledger.control.runId && (AtTarget(w) || AtPredecessor(w))
    ensures var b := RunOk(lib, Restarted(lib, w), GateLength(w) + 1);
            && b.pc == Idle(Success(Done)) && AtTarget(b) && !b.failed
            && b.ledger == w.ledger.(pending := None) && b.grants == w.grants
  {
    var r := Restarted(lib, w);
    assert Healthy(r) && r.pc == Gate(Serve(Startup)) && r.ledger == w.ledger && r.grants == w.grants by {
      hide TablesOk, ActStep;
    }
    hide Inv, Healthy, Restarted, ActStep;
    var g := GateConverges(lib, r);
    var s := RunOk(lib, r, GateLength(w));
    RunOkAdd(lib, r, GateLength(w), 1);
    MigrateIdle(lib, s);
    assert RunOk(lib, s, 1) == RunOk(lib, ActStep(lib, s, NoFault), 0);
  }

  lemma MigrateIdle(lib: Libraries, w: World)
    requires w.pc == Transacting(Startup) && w.ledger.control.schema == SCHEMA && w.ledger.pending.None?
    ensures ActStep(lib, w, NoFault) == w.(pc := Idle(Success(Done)))
  {
    assert w.grants + [] == w.grants;
  }

  // ----- a committed broadcast can be retried -----

  /** Retrying a broadcast already recorded succeeds without a second attempt row or another increment. */
  lemma RetrySucceeds(lib: Libraries, w: World, req: Request)
    requires Inv(lib, w.ledger) && Healthy(w) && w.pc.Idle? && req.Broadcast? && Precheck(req).Success?
    requires req.id in w.ledger.admissions && w.ledger.admissions[req.id].kind == req.kind
    requires Permitted(w.ledger, Ordinary(req.id, req.key, req.attempt))
             && (req.kind.Solana? ==> w.ledger.control.schema == SCHEMA)
    ensures var b := RunOk(lib, Next(lib, w, Call(req)), GateLength(w) + 1);
            && b.pc == Idle(Success(Done)) && b.ledger == w.ledger.(pending := None) && AtTarget(b)
            && b.grants == w.grants + [Ordinary(req.id, req.key, req.attempt)]
  {
    var c := Next(lib, w, Call(req));
    hide TablesOk, ControlOk, Permitted, ActStep, Transact, Precheck;
    PermittedFrame(w.ledger, w.ledger.(pending := None), Ordinary(req.id, req.key, req.attempt));
    TablesFrame(lib, w.ledger);
    RetryTransaction(lib, w.ledger.(pending := None), req);
    var g := GateConverges(lib, c);
    var s := RunOk(lib, c, GateLength(w));
    RunOkAdd(lib, c, GateLength(w), 1);
    AnswerStep(lib, s, req, Done);
    assert RunOk(lib, s, 1) == RunOk(lib, ActStep(lib, s, NoFault), 0);
  }

  lemma TablesFrame(lib: Libraries, l: Ledger)
    requires TablesOk(lib, l)
    ensures TablesOk(lib, l.(pending := None))
  {}

  lemma AnswerStep(lib: Libraries, w: World, req: Request, reply: Reply)
    requires w.pc == Transacting(req) && Transact(lib, w.ledger, req) == Answer(w.ledger, reply)
    ensures ActStep(lib, w, NoFault) == Finish(w, req, Success(reply))
  {
    hide Transact;
  }

  lemma RetryTransaction(lib: Libraries, l: Ledger, req: Request)
    requires TablesOk(lib, l) && req.Broadcast?
    requires req.id in l.admissions && l.admissions[req.id].kind == req.kind
    requires Permitted(l, Ordinary(req.id, req.key, req.attempt)) && (req.kind.Solana? ==> l.control.schema == SCHEMA)
    ensures Transact(lib, l, req) == Answer(l, Done)
  {
    var row :| row in l.attempts && row.id == req.id && row.replayKey == req.key
      && CanonicalText(row.payload) == CanonicalText(req.attempt);
    assert RowOk(l.admissions, row);
    assert row.digest == AttemptDigest(req.attempt);
    var found := FindAttempt(l.attempts, req.id, AttemptDigest(req.attempt));
    assert found.Some?;
    assert RowOk(l.admissions, found.value);
    SameDigest(found.value.payload, req.attempt);
    assert KeysUnique(l.admissions) && Holds(l.admissions, req.id, req.key);
    hide TablesOk, CanonicalText;
  }

  lemma SameDigest(a: Json, b: Json)
    requires AttemptDigest(a) == AttemptDigest(b)
    ensures CanonicalText(a) == CanonicalText(b)
  {}

  // ----- an operation commits at most once -----

  /** Same rows, same checkpoint; only the pending record and the halt may differ. */
  ghost predicate SameRecord(a: Ledger, b: Ledger) {
    b == a.(pending := b.pending, control := a.control.(halted := b.control.halted, reason := b.control.reason)) &&
    (a.control.halted ==> b.control.halted)
  }

  /** The ledger an operation commits, started from `before` with nothing pending. */
  function Committed(lib: Libraries, before: Ledger, req: Request): Ledger {
    Transact(lib, before.(pending := None), req).ledger
  }

  ghost predicate Stage(lib: Libraries, before: Ledger, req: Request, k: Then, l: Ledger) {
    k.req == req && SameRecord(if k.Serve? then before else Committed(lib, before, req), l)
  }

  ghost predicate OnceOnly(lib: Libraries, before: Ledger, req: Request, l: Ledger) {
    SameRecord(before, l) || SameRecord(Committed(lib, before, req), l)
  }

  /** Where a running operation stands: before its one transaction, or after it. */
  ghost predicate Operating(lib: Libraries, before: Ledger, req: Request, w: World) {
    match w.pc
    case Gate(k) => Stage(lib, before, req, k, w.ledger)
    case Observing(k, _, _) => Stage(lib, before, req, k, w.ledger)
    case Publishing(k, _, _) => Stage(lib, before, req, k, w.ledger)
    case Confirming(k, _, _) => Stage(lib, before, req, k, w.ledger)
    case Acknowledging(k, _, _) => Stage(lib, before, req, k, w.ledger)
    case Settling(k, _) => Stage(lib, before, req, k, w.ledger)
    case MirrorReading(k, _) => k.Return? && Stage(lib, before, req, k, w.ledger)
    case Transacting(r) => r == req && SameRecord(before, w.ledger)
    case Halting(k, _) => k.req == req && OnceOnly(lib, before, req, w.ledger)
    case Idle(_) => OnceOnly(lib, before, req, w.ledger)
    case _ => false
  }

  /** Events of the operation itself and of its surroundings. */
  predicate During(e: Event) { e.Act? || e.Restart? || e.ChangeRole? || e.Disaster? || e.Forge? || e.Deliver? }

  lemma SameRecordHalt(a: Ledger, l: Ledger, reason: Reason)
    requires SameRecord(a, l)
    ensures SameRecord(a, Halted(l, reason)) && SameRecord(a, l.(pending := None))
  {}

  /** Where the transaction runs, the ledger is exactly the one the operation started from. */
  lemma TransactsFromStart(lib: Libraries, before: Ledger, w: World)
    requires Safe(lib, w) && w.pc.Transacting? && SameRecord(before, w.ledger)
             && (before.control.halted <==> before.control.reason.Some?)
    ensures w.ledger == before.(pending := None)
  {
    hide TablesOk, NetOk, GrantsOk;
  }

  lemma TransactOnce(lib: Libraries, before: Ledger, req: Request, w: World, fault: Fault)
    requires w.pc == Transacting(req) && w.ledger == before.(pending := None) && !Starting(req)
             && SameRecord(before, w.ledger)
    ensures Operating(lib, before, req, ActTransact(lib, w, req, fault))
  {
    hide Transact;
  }

  lemma StageOnce(lib: Libraries, before: Ledger, req: Request, k: Then, l: Ledger)
    requires Stage(lib, before, req, k, l)
    ensures k.req == req && OnceOnly(lib, before, req, l) && (k.Serve? ==> SameRecord(before, l))
  {
    hide SameRecord, Committed;
  }

  lemma ReadOnce(lib: Libraries, before: Ledger, req: Request, w: World, fault: Fault)
    requires Operating(lib, before, req, w) && !Starting(req)
    requires w.pc.Gate? || w.pc.Observing? || w.pc.Publishing? || w.pc.Confirming? || w.pc.Settling?
             || w.pc.MirrorReading?
    ensures Operating(lib, before, req, ActStep(lib, w, fault))
  {
    hide Stage, OnceOnly, SameRecord, Committed, LoadPending, Observe, Confirm, Effective;
    StageOnce(lib, before, req, w.pc.k, w.ledger);
  }

  lemma AcknowledgeOnce(lib: Libraries, before: Ledger, req: Request, w: World, fault: Fault)
    requires Operating(lib, before, req, w) && !Starting(req) && w.pc.Acknowledging?
    ensures Operating(lib, before, req, ActStep(lib, w, fault))
  {
    var k, acknowledged := w.pc.k, w.ledger.(pending := None);
    SameRecordHalt(if k.Serve? then before else Committed(lib, before, req), w.ledger, Initializing);
    assert Stage(lib, before, req, k, acknowledged);
    hide Stage, OnceOnly, SameRecord, Committed, PendingValid;
    StageOnce(lib, before, req, k, w.ledger);
    StageOnce(lib, before, req, k, acknowledged);
  }

  lemma HaltOnce(lib: Libraries, before: Ledger, req: Request, w: World, fault: Fault)
    requires Operating(lib, before, req, w) && !Starting(req) && w.pc.Halting?
    ensures Operating(lib, before, req, ActStep(lib, w, fault))
  {
    if SameRecord(before, w.ledger) { SameRecordHalt(before, w.ledger, w.pc.reason); }
    else { SameRecordHalt(Committed(lib, before, req), w.ledger, w.pc.reason); }
    hide SameRecord, Committed, Halted;
  }

  lemma DuringOnce(lib: Libraries, before: Ledger, req: Request, w: World, e: Event)
    requires Safe(lib, w) && Operating(lib, before, req, w) && During(e) && Enabled(w, e) && !Starting(req)
    requires before.control.halted <==> before.control.reason.Some?
    ensures Operating(lib, before, req, Next(lib, w, e))
  {
    if e.Act? {
      if w.pc.Transacting? {
        TransactsFromStart(lib, before, w);
        hide Safe, ActTransact;
        TransactOnce(lib, before, req, w, e.fault);
      } else {
        hide Safe, ActStep;
        if w.pc.Halting? { HaltOnce(lib, before, req, w, e.fault); }
        else if w.pc.Acknowledging? { AcknowledgeOnce(lib, before, req, w, e.fault); }
        else if !w.pc.Idle? { ReadOnce(lib, before, req, w, e.fault); }
      }
    } else {
      hide Safe, Stage, OnceOnly, SameRecord, Committed, ActStep, Effective;
    }
  }

  /**
   * From a call to its answer, whatever fails on the way, the ledger is the one before the call or the one its single
   * transaction commits.
   */
  lemma {:induction false} OperationCommitsOnce(lib: Libraries, states: seq<World>, events: seq<Event>, req: Request,
                                                i: nat)
    requires SafeRun(lib, states, events) && 1 <= i < |states| && events[0] == Call(req)
    requires forall n :: 1 <= n < |events| ==> During(events[n])
    ensures Operating(lib, states[0].ledger, req, states[i]) && OnceOnly(lib, states[0].ledger, req, states[i].ledger)
    ensures states[i].ledger.control.checkpoint in {states[0].ledger.control.checkpoint,
                                                    states[0].ledger.control.checkpoint + 1}
  {
    hide Safe, StepAt, TablesOk, Operating, Next, Enabled, OnceOnly;
    RunInv(lib, states, events, 0);
    if i == 1 {
      RunStep(lib, states, events, 0);
      CallOperates(lib, states[0], req);
    } else {
      OperationCommitsOnce(lib, states, events, req, i - 1);
      RunStep(lib, states, events, i - 1);
      NotStarting(lib, states, events, req);
      DuringOnce(lib, states[0].ledger, req, states[i - 1], events[i - 1]);
    }
    OperatingOnce(lib, states[0].ledger, req, states[i]);
  }

  lemma NotStarting(lib: Libraries, states: seq<World>, events: seq<Event>, req: Request)
    requires SafeRun(lib, states, events) && |events| > 0 && events[0] == Call(req)
    ensures !Starting(req)
  {
    hide Safe, Next;
    assert StepAt(lib, states, events, 0);
  }

  lemma CallOperates(lib: Libraries, w: World, req: Request)
    ensures Operating(lib, w.ledger, req, Next(lib, w, Call(req)))
  {
    hide ActStep, Committed;
  }

  lemma OperatingOnce(lib: Libraries, before: Ledger, req: Request, w: World)
    requires Operating(lib, before, req, w)
    ensures OnceOnly(lib, before, req, w.ledger)
    ensures w.ledger.control.checkpoint in {before.control.checkpoint, before.control.checkpoint + 1}
  {
    TransactMoved(lib, before.(pending := None), req);
    hide Transact;
  }

  /**
   * A process that dies anywhere inside an operation, with Redis intact, leaves what a restart completes: marker =
   * token, nothing pending, and the operation's transaction committed exactly once or not at all.
   */
  lemma CrashedOperationConverges(lib: Libraries, states: seq<World>, events: seq<Event>, req: Request, i: nat)
    requires SafeRun(lib, states, events) && Intact(states[0]) && 1 <= i < |states| && events[0] == Call(req)
    requires forall n :: 1 <= n < |events| ==> During(events[n]) && Gentle(events[n])
    requires var w := states[i];
             !w.ledger.control.halted && w.ledger.control.schema == SCHEMA && w.redis.master
             && w.redis.runId == w.ledger.control.runId
    ensures var b := RunOk(lib, Restarted(lib, states[i]), GateLength(states[i]) + 1);
            && b.pc == Idle(Success(Done)) && AtTarget(b) && b.ledger.pending.None? && b.grants == states[i].grants
            && OnceOnly(lib, states[0].ledger, req, b.ledger)
            && b.ledger.control.checkpoint in {states[0].ledger.control.checkpoint,
                                               states[0].ledger.control.checkpoint + 1}
  {
    hide Safe, IsRun, TablesOk, Operating, OnceOnly, RunOk, Restarted;
    RunInv(lib, states, events, i);
    PublicationInvariant(lib, states, events, i);
    OperationCommitsOnce(lib, states, events, req, i);
    CrashConverges(lib, states[i]);
    OnceOnlyAcknowledged(lib, states[0].ledger, req, states[i].ledger);
  }

  lemma OnceOnlyAcknowledged(lib: Libraries, before: Ledger, req: Request, l: Ledger)
    requires OnceOnly(lib, before, req, l)
    ensures OnceOnly(lib, before, req, l.(pending := None))
  {
    hide Committed;
    if SameRecord(before, l) { SameRecordHalt(before, l, Initializing); }
    else { SameRecordHalt(Committed(lib, before, req), l, Initializing); }
  }

  /**
   * A broadcast that committed and then lost its answer: once Redis is healthy again, the same call succeeds, with no
   * second attempt row and no further increment.
   */
  lemma CommittedBroadcastRetries(lib: Libraries, before: Ledger, req: Request, w: World)
    requires Inv(lib, before.(pending := None)) && Inv(lib, w.ledger) && Healthy(w) && w.pc.Idle? && req.Broadcast?
             && Precheck(req).Success?
    requires Transact(lib, before.(pending := None), req).reply.Success?
             && SameRecord(Committed(lib, before, req), w.ledger)
    requires req.kind.Solana? ==> w.ledger.control.schema == SCHEMA
    ensures var b := RunOk(lib, Next(lib, w, Call(req)), GateLength(w) + 1);
            && b.pc == Idle(Success(Done)) && AtTarget(b) && b.ledger == w.ledger.(pending := None)
            && b.ledger.attempts == w.ledger.attempts && b.ledger.control.checkpoint == w.ledger.control.checkpoint
            && b.grants == w.grants + [Ordinary(req.id, req.key, req.attempt)]
  {
    var l := before.(pending := None);
    BroadcastPermits(lib, l, req);
    BroadcastKind(lib, l, req);
    PermittedFrame(Committed(lib, before, req), w.ledger, Ordinary(req.id, req.key, req.attempt));
    hide Inv, Permitted, Transact, Precheck, Healthy, RunOk, Next;
    RetrySucceeds(lib, w, req);
  }

  lemma BroadcastKind(lib: Libraries, l: Ledger, req: Request)
    requires req.Broadcast? && Transact(lib, l, req).reply.Success?
    ensures var after := Transact(lib, l, req).ledger;
            req.id in after.admissions && after.admissions[req.id].kind == req.kind
  {
    hide CanonicalText, FindAttempt, TakenByOther, ChainHalted;
    if req.id in l.admissions {
      CommitSpec(l, Attempted(l, Attempt(req.id, req.key, AttemptDigest(req.attempt), req.attempt)), Success(Done));
    }
  }

  // ----- fault-free operations complete -----

  lemma TransactStep(lib: Libraries, w: World, req: Request)
    requires w.pc == Transacting(req) && Transact(lib, w.ledger, req).advanced && !Starting(req)
    ensures ActStep(lib, w, NoFault) ==
              w.(ledger := Transact(lib, w.ledger, req).ledger,
                 pc := MirrorReading(Return(req, Transact(lib, w.ledger, req).reply), w.ledger.control))
  {
    hide Transact;
  }

  lemma MirrorStep(lib: Libraries, w: World)
    requires w.pc.MirrorReading? && w.ledger.pending.Some? && PendingValid(w.ledger.pending.value, w.ledger.control)
    requires w.ledger.pending.value.previous == TokenOf(w.pc.previous)
    ensures ActStep(lib, w, NoFault) == w.(pc := Observing(w.pc.k, w.ledger.control, w.ledger.pending))
  {}

  /** A committed transition starts healthy: the marker is the token it replaces. */
  lemma CommittedIsHealthy(lib: Libraries, w: World, b: World, req: Request)
    requires Healthy(w) && AtTarget(w) && w.ledger.pending.None? && !Starting(req)
             && Transact(lib, w.ledger, req).advanced
    requires b.ledger == Transact(lib, w.ledger, req).ledger && b.redis == w.redis && b.failed == w.failed
    ensures Healthy(b) && b.ledger.pending.Some? && b.ledger.pending.value.previous == TokenOf(w.ledger.control)
  {
    TransactMoved(lib, w.ledger, req);
    hide Transact, PendingValid;
    assert KeyOf(b.ledger.control) == KeyOf(w.ledger.control);
  }

  /**
   * From a healthy state an operation that commits runs to its answer: its transaction's ledger, acknowledged, one
   * checkpoint further, with the marker at the new token.
   */
  lemma CommitCompletes(lib: Libraries, w: World, req: Request)
    requires Healthy(w) && w.pc.Idle? && !Starting(req) && !req.Health? && Precheck(req).Success?
    requires Transact(lib, w.ledger.(pending := None), req).advanced
    ensures var o := Transact(lib, w.ledger.(pending := None), req);
            var b := RunOk(lib, Next(lib, w, Call(req)), GateLength(w) + 7);
            && b.pc == Idle(o.reply) && b.ledger == o.ledger.(pending := None) && AtTarget(b)
            && b.ledger.control.checkpoint == w.ledger.control.checkpoint + 1
            && b.grants == w.grants + GrantOf(req, o.reply)
  {
    var c := Next(lib, w, Call(req));
    var l := w.ledger.(pending := None);
    assert Healthy(c) && c.pc == Gate(Serve(req)) && c.ledger == w.ledger && c.grants == w.grants by {
      hide Precheck, ActStep, PendingValid;
    }
    TransactMoved(lib, l, req);
    hide Next, Healthy, ActStep, Transact, Precheck, PendingValid;
    var g := GateConverges(lib, c);
    var s := RunOk(lib, c, GateLength(w));
    TransactingAfterGate(g, w.ledger.control, req);
    CommitFromTransacting(lib, s, req);
    RunOkAdd(lib, c, GateLength(w), 7);
  }

  lemma TransactingAfterGate(g: World, c: Control, req: Request)
    requires Healthy(g) && AtTarget(g) && !Starting(req) && !req.Health?
    ensures var s := Proceed(g.(seen := Some(c)), Serve(req));
            s.pc == Transacting(req) && s.ledger == g.ledger && s.grants == g.grants && Healthy(s) && AtTarget(s)
  {
    hide PendingValid;
  }

  lemma CommitFromTransacting(lib: Libraries, s: World, req: Request)
    requires Healthy(s) && AtTarget(s) && s.pc == Transacting(req) && s.ledger.pending.None? && !Starting(req)
             && Transact(lib, s.ledger, req).advanced
    ensures var o := Transact(lib, s.ledger, req);
            var b := RunOk(lib, s, 7);
            b.pc == Idle(o.reply) && b.ledger == o.ledger.(pending := None) && AtTarget(b)
            && b.grants == s.grants + GrantOf(req, o.reply)
  {
    var o := Transact(lib, s.ledger, req);
    TransactStep(lib, s, req);
    var t1 := ActStep(lib, s, NoFault);
    CommittedIsHealthy(lib, s, t1, req);
    HealthyPending(t1);
    hide Transact, ActStep, PendingValid, Healthy;
    MirrorStep(lib, t1);
    var t2 := ActStep(lib, t1, NoFault);
    SameHealth(t1, t2);
    ObserveStep(lib, t2);
    var t3 := ActStep(lib, t2, NoFault);
    SameHealth(t2, t3);
    var b := RepairConverges(lib, t3);
    assert RunOk(lib, s, 7) == RunOk(lib, t1, 6) == RunOk(lib, t2, 5) == RunOk(lib, t3, 4);
  }

  lemma HealthyPending(w: World)
    requires Healthy(w) && w.ledger.pending.Some?
    ensures PendingValid(w.ledger.pending.value, w.ledger.control)
  {}

  lemma SameHealth(w: World, b: World)
    requires Healthy(w) && b == w.(pc := b.pc)
    ensures Healthy(b)
  {
    hide PendingValid;
  }

  // ----- a broadcast whose answer was lost, end to end -----

  /**
   * A broadcast that succeeds answers Done, and leaves the rows and the checkpoint as they were or adds its own row
   * and one increment.
   */
  lemma BroadcastAddsOnce(lib: Libraries, l: Ledger, req: Request)
    requires Inv(lib, l) && req.Broadcast? && Transact(lib, l, req).reply.Success?
    ensures var o := Transact(lib, l, req);
            && o.reply == Success(Done) && AddedOnce(l, o.ledger, req) && (!o.advanced ==> o.ledger == l)
            && (req.kind.Solana? ==> o.ledger.control.schema == SCHEMA)
  {
    hide TablesOk, PendingValid, Conflicted, Commit, AttemptDigest, CanonicalText, FindAttempt, TakenByOther,
         ChainHalted;
    if req.id in l.admissions {
      CommitSpec(l, Attempted(l, Attempt(req.id, req.key, AttemptDigest(req.attempt), req.attempt)), Success(Done));
    }
  }

  /** At most one attempt row, the request's own, and with it exactly one increment. */
  ghost predicate AddedOnce(a: Ledger, b: Ledger, req: Request)
    requires req.Broadcast?
  {
    || (b.attempts == a.attempts && b.control.checkpoint == a.control.checkpoint)
    || (b.attempts == a.attempts + [Attempt(req.id, req.key, AttemptDigest(req.attempt), req.attempt)]
        && b.control.checkpoint == a.control.checkpoint + 1)
  }

  /**
   * A healthy ledger with the record of another one that is not halted either is that ledger, up to the pending
   * record.
   */
  lemma SameWhenLive(lib: Libraries, before: Ledger, w: World)
    requires ControlOk(before) && ControlOk(w.ledger) && Healthy(w) && SameRecord(before, w.ledger)
    ensures w.ledger.(pending := None) == before.(pending := None)
  {
    hide PendingValid;
  }

  /**
   * A broadcast was called and answered, with a publication still pending or at whichever other cut. Once Redis is
   * healthy again the same call succeeds, and over both calls there is at most one new attempt row, the call's own,
   * and at most one increment.
   */
  lemma InterruptedBroadcastCompletes(lib: Libraries, states: seq<World>, events: seq<Event>, req: Request, m: nat)
    returns (n: nat)
    requires SafeRun(lib, states, events) && 1 <= m < |states| && req.Broadcast? && events[0] == Call(req)
    requires forall i :: 1 <= i < |events| ==> During(events[i])
    requires states[m].pc.Idle? && Healthy(states[m])
    requires Transact(lib, states[0].ledger.(pending := None), req).reply.Success?
    ensures var b := RunOk(lib, Next(lib, states[m], Call(req)), n);
            && b.pc == Idle(Success(Done)) && AtTarget(b) && b.ledger.pending.None?
            && b.grants == states[m].grants + [Ordinary(req.id, req.key, req.attempt)]
            && AddedOnce(states[0].ledger, b.ledger, req)
  {
    var before, w := states[0].ledger, states[m];
    assert Precheck(req).Success? by {
      hide Safe, Next, Precheck;
      assert StepAt(lib, states, events, 0);
    }
    hide SafeRun, Transact, Precheck, Healthy, RunOk, Next, OnceOnly, SameRecord, Operating, Committed, AddedOnce,
         TablesOk, ControlOk;
    RunInv(lib, states, events, 0);
    RunInv(lib, states, events, m);
    AcknowledgeKeeps(lib, before);
    OperationCommitsOnce(lib, states, events, req, m);
    n := RetryCompletes(lib, before, req, w);
  }

  lemma RetryCompletes(lib: Libraries, before: Ledger, req: Request, w: World) returns (n: nat)
    requires Inv(lib, before) && Inv(lib, before.(pending := None)) && Inv(lib, w.ledger)
    requires Healthy(w) && w.pc.Idle? && req.Broadcast? && Precheck(req).Success?
             && OnceOnly(lib, before, req, w.ledger)
    requires Transact(lib, before.(pending := None), req).reply.Success?
    ensures var b := RunOk(lib, Next(lib, w, Call(req)), n);
            && b.pc == Idle(Success(Done)) && AtTarget(b) && b.ledger.pending.None?
            && b.grants == w.grants + [Ordinary(req.id, req.key, req.attempt)]
            && AddedOnce(before, b.ledger, req)
  {
    hide TablesOk, ControlOk, Transact, Precheck, Healthy, RunOk, Next, PendingValid;
    BroadcastAddsOnce(lib, before.(pending := None), req);
    if SameRecord(before, w.ledger) { SameWhenLive(lib, before, w); }
    if SameRecord(before, w.ledger) && Transact(lib, before.(pending := None), req).advanced {
      n := GateLength(w) + 7;
      CommitCompletes(lib, w, req);
    } else {
      n := GateLength(w) + 1;
      CommittedBroadcastRetries(lib, before, req, w);
    }
  }

  /** A fresh deployment comes up: initialize publishes and releases, and the first process starts healthy. */
  lemma FreshDeploymentServes(lib: Libraries, deployment: string, namespace: Option<string>, redis: Redis)
    requires redis.master && MarkerKey(namespace) !in redis.markers
    ensures var w := RunOk(lib, Initialized(deployment, namespace, redis), 2);
            var b := RunOk(lib, Restarted(lib, w), GateLength(w) + 1);
            && w.pc.Down? && !w.ledger.control.halted && AtTarget(w)
            && b.pc == Idle(Success(Done)) && AtTarget(b) && !b.failed && b.ledger.admissions == map[]
  {
    var w0 := Initialized(deployment, namespace, redis);
    InitialOk(lib, deployment, namespace, redis.runId);
    UnhaltedKeeps(lib, w0.ledger);
    PublishesAndReleases(lib, w0);
    hide ActStep, Inv, Evolves, Restarted;
    var w1 := ActStep(lib, w0, NoFault);
    var w2 := ActStep(lib, w1, NoFault);
    assert RunOk(lib, w0, 2) == RunOk(lib, w1, 1) == RunOk(lib, w2, 0);
    CrashConverges(lib, w2);
  }

  lemma PublishesAndReleases(lib: Libraries, w: World)
    requires w.pc.InitPublishing? && KeyOf(w.ledger.control) !in w.redis.markers
    ensures var w2 := ActStep(lib, ActStep(lib, w, NoFault), NoFault);
            w2.pc.Down? && w2.ledger == Unhalted(w.ledger) && AtTarget(w2) && w2.redis.master == w.redis.master
            && w2.redis.runId == w.redis.runId
  {}
}
