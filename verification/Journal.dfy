/**
 * The recovery journal as it runs: one object owns the ledger, talks to a Redis it does not control, and keeps
 * a volatile latch. Every method is proved to take only steps of the protocol (`trace` is a run of it), and
 * states what it leaves in the ledger. Redis may do anything between two commands (`Weather`), and every
 * command or transaction may fail before or after it took effect.
 */
module Journal {
  import opened Wrappers
  import opened Text
  import opened Json
  import opened ReplayKey
  import opened Ledger
  import opened LedgerInvariant
  import opened Protocol
  import opened ProtocolInvariant
  import opened Runs
  import opened Convergence
  import F = Finality

  /** Where an operation stands once its checkpoint is confirmed. */
  function Proceeded(k: Then): Pc {
    match k
    case Serve(req) => if req.Health? || req.Opened? then Idle(Success(Done)) else Transacting(req)
    case Return(req, reply) => if reply.Failure? && Starting(req) then Down else Idle(reply)
  }

  function Failed(k: Then, e: Error): Pc { if Starting(k.req) then Down else Idle(Failure(e)) }

  /** What the operation in hand grants when it proceeds. */
  function Gives(k: Then): seq<Grant> {
    match k
    case Serve(req) => []
    case Return(req, reply) => GrantOf(req, reply)
  }

  /** A successful operation leaves exactly its transaction's ledger, acknowledged, and its transaction's reply. */
  ghost predicate Completed(lib: Libraries, before: Ledger, after: Ledger, req: Request, reply: Reply) {
    var o := Transact(lib, before.(pending := None), req);
    o.reply == Success(reply) && after == o.ledger.(pending := None) && !after.control.halted
  }

  lemma SameStart(lib: Libraries, l: Ledger, req: Request)
    requires l.pending.None?
    ensures Committed(lib, l, req) == Transact(lib, l, req).ledger
    ensures SameRecord(l, l) && SameRecord(Transact(lib, l, req).ledger, Transact(lib, l, req).ledger)
  {
    hide Transact;
    assert l.(pending := None) == l;
  }

  lemma SameIsOnce(lib: Libraries, before: Ledger, req: Request)
    ensures forall after :: SameRecord(before, after) ==> OnceOnly(lib, before, req, after)
    ensures SameRecord(before, before)
  {
    hide Transact;
  }

  lemma CallActs(lib: Libraries, w: World, req: Request)
    requires w.pc.Idle? && !Starting(req) && Precheck(req).Success?
    ensures Enabled(w, Call(req)) && Next(lib, w, Call(req)) == w.(pc := Gate(Serve(req)), seen := None)
  {
    hide ActStep, Precheck;
  }

  /** Nothing moved, or only the acknowledged record. */
  lemma SameItself(l: Ledger)
    ensures SameRecord(l, l)
    ensures forall after :: SameRecord(l.(pending := None), after) ==> SameRecord(l, after)
  {}

  lemma HealthCompletes(lib: Libraries, l: Ledger)
    requires !l.control.halted
    ensures Completed(lib, l, l.(pending := None), Health, Done) && OnceOnly(lib, l, Health, l.(pending := None))
  {}

  lemma StartIsAcknowledged(lib: Libraries, before: Ledger, req: Request, after: Ledger)
    ensures Committed(lib, before.(pending := None), req) == Committed(lib, before, req)
    ensures SameRecord(before.(pending := None), after) ==> SameRecord(before, after)
    ensures OnceOnly(lib, before.(pending := None), req, after) ==> OnceOnly(lib, before, req, after)
    ensures forall reply :: Completed(lib, before.(pending := None), after, req, reply) ==>
              Completed(lib, before, after, req, reply)
  {
    hide Transact;
    assert before.(pending := None).(pending := None) == before.(pending := None);
  }

  // ----- what a completed operation means, request by request -----

  lemma StartInv(lib: Libraries, states: seq<World>, events: seq<Event>)
    requires |states| > 0 && SafeRun(lib, states, events)
    ensures Inv(lib, states[|states| - 1].ledger) && Inv(lib, states[|states| - 1].ledger.(pending := None))
  {
    hide SafeRun, TablesOk, ControlOk, Evolves;
    RunInv(lib, states, events, |states| - 1);
    AcknowledgeKeeps(lib, states[|states| - 1].ledger);
  }

  lemma ReserveCompleted(lib: Libraries, before: Ledger, after: Ledger, kind: Kind, id: string, fingerprint: Digest,
                         payload: Json, reply: Reply)
    requires Completed(lib, before, after, Reserve(kind, id, fingerprint, payload), reply)
    ensures reply.Reserved? && id in after.admissions && after.admissions[id].payload == reply.payload
    ensures reply.terminal <==> after.admissions[id].state.Terminal?
    ensures after.admissions[id].kind == kind && after.admissions[id].fingerprint == fingerprint
            && !after.admissions[id].state.Quarantined?
    ensures id in before.admissions ==> after == before.(pending := None)
    ensures id !in before.admissions ==> reply == Reserved(payload, false)
    ensures id !in before.admissions ==>
              after.admissions == before.admissions[id := Admission(kind, fingerprint, payload, Admitted, None)]
  {
    var l := before.(pending := None);
    CommitSpec(l, l.(admissions := l.admissions[id := Admission(kind, fingerprint, payload, Admitted, None)]),
               Success(Reserved(payload, false)));
  }

  lemma BroadcastCompleted(lib: Libraries, before: Ledger, after: Ledger, req: Request, reply: Reply)
    requires Inv(lib, before.(pending := None)) && req.Broadcast? && Completed(lib, before, after, req, reply)
    ensures reply == Done && Permitted(after, Ordinary(req.id, req.key, req.attempt))
            && after.admissions[req.id].kind == req.kind && after.pending.None?
    ensures after == before.(pending := None) ||
            ( after.attempts == before.attempts + [Attempt(req.id, req.key, AttemptDigest(req.attempt), req.attempt)]
              && after.control.checkpoint == before.control.checkpoint + 1)
  {
    var l := before.(pending := None);
    var o := TxBroadcast(l, req.kind, req.id, req.key, req.attempt);
    BroadcastPermits(lib, l, req);
    assert o == Transact(lib, l, req);
    PermittedFrame(o.ledger, after, Ordinary(req.id, req.key, req.attempt));
    BroadcastShape(l, req.kind, req.id, req.key, req.attempt);
    if req.id in l.admissions {
      CommitSpec(l, Attempted(l, Attempt(req.id, req.key, AttemptDigest(req.attempt), req.attempt)), Success(Done));
    }
    hide Inv, Permitted, Commit, CanonicalText, FindAttempt, TakenByOther, ChainHalted;
  }

  lemma FirstWitnessAppended(rows: seq<Witness>, w: Witness)
    requires FirstWitness(rows, w.id).None?
    ensures FirstWitness(rows + [w], w.id) == Some(w.evidence)
  {
    var all := rows + [w];
    assert all[|rows|] == w;
    var k :| 0 <= k < |all| && all[k].id == w.id && all[k].evidence == FirstWitness(all, w.id).value
      && forall j :: 0 <= j < k ==> all[j].id != w.id;
    assert forall j :: 0 <= j < |rows| ==> all[j] == rows[j];
  }

  lemma TerminalSuccess(lib: Libraries, l: Ledger, kind: Kind, id: string, evidence: Json)
    requires TxRecordTerminal(lib, l, kind, id, evidence).reply.Success?
    ensures var o := TxRecordTerminal(lib, l, kind, id, evidence);
            && id in l.admissions
            && if IsTerminal(l.admissions, id) then
                 && o.ledger == l && FirstWitness(l.evidence, id).Some?
                 && CanonicalText(TerminalIdentity(FirstWitness(l.evidence, id).value)) ==
                   CanonicalText(TerminalIdentity(evidence))
               else o == Commit(l, Witnessed(l, Witness(id, evidence)), Success(Done))
  {
    hide CanonicalText, FirstWitness, ValidateIdentity, Commit, TerminalIdentity;
  }

  lemma TerminalCompleted(lib: Libraries, before: Ledger, after: Ledger, kind: Kind, id: string, evidence: Json,
                          reply: Reply)
    requires Inv(lib, before.(pending := None))
             && Completed(lib, before, after, RecordTerminal(kind, id, evidence), reply)
    ensures IsTerminal(after.admissions, id) && FirstWitness(after.evidence, id).Some?
    ensures CanonicalText(TerminalIdentity(FirstWitness(after.evidence, id).value)) ==
              CanonicalText(TerminalIdentity(evidence))
    ensures IsTerminal(before.admissions, id) ==> after == before.(pending := None)
  {
    var l := before.(pending := None);
    assert WitnessOk(l.admissions, l.evidence);
    hide Inv, WitnessOk, CanonicalText, FirstWitness, Commit, TerminalIdentity, TxRecordTerminal, Witnessed;
    TerminalSuccess(lib, l, kind, id, evidence);
    if !IsTerminal(before.admissions, id) {
      NoWitnessYet(l, id);
      FirstTerminal(l, Witness(id, evidence), after);
    }
  }

  lemma FirstTerminal(l: Ledger, w: Witness, after: Ledger)
    requires w.id in l.admissions && FirstWitness(l.evidence, w.id).None?
    requires Commit(l, Witnessed(l, w), Success(Done)).reply.Success?
             && after == Commit(l, Witnessed(l, w), Success(Done)).ledger.(pending := None)
    ensures IsTerminal(after.admissions, w.id) && FirstWitness(after.evidence, w.id) == Some(w.evidence)
  {
    hide Commit, FirstWitness;
    FirstWitnessAppended(l.evidence, w);
    CommitSpec(l, Witnessed(l, w), Success(Done));
  }

  lemma NoWitnessYet(l: Ledger, id: string)
    requires WitnessOk(l.admissions, l.evidence) && !IsTerminal(l.admissions, id)
    ensures FirstWitness(l.evidence, id).None?
  {
    forall i | 0 <= i < |l.evidence| ensures l.evidence[i].id != id { assert l.evidence[i] in l.evidence; }
  }

  /** The chain's stored checkpoint is this evidence: same height, hash and policy, on a chain that is not halted. */
  predicate Stored(l: Ledger, chain: nat, e: F.Evidence) {
    && Decimal(chain) in l.checkpoints && Decimal(chain) !in l.halts
    && l.checkpoints[Decimal(chain)].checkpointNumber == e.checkpointNumber
    && l.checkpoints[Decimal(chain)].checkpointHash == e.checkpointHash
    && l.checkpoints[Decimal(chain)].policy == e.policy
  }

  lemma CheckpointCompleted(lib: Libraries, before: Ledger, after: Ledger, chain: nat, expected: Option<F.Evidence>,
                            e: F.Evidence, reply: Reply)
    requires Completed(lib, before, after, CommitCheckpoint(chain, expected, e), reply)
    ensures reply.Accepted?
    ensures reply.accepted ==> Stored(after, chain, e)
    ensures !reply.accepted ==> after == before.(pending := None)
  {
    hide Decimal;
    var l := before.(pending := None);
    CommitSpec(l, l.(checkpoints := l.checkpoints[Decimal(chain) := e]), Success(Accepted(true)));
    hide Commit;
  }

  lemma SolanaReply(lib: Libraries, l: Ledger, req: Request)
    requires req.SolanaBroadcast?
    ensures var r := TxSolanaBroadcast(lib, l, req.id, req.payload, req.attempt, req.now).reply;
            r.Success? ==> r.value.Permission?
  {
    hide Retain, CanonicalText, Fits;
  }

  lemma SolanaCompleted(lib: Libraries, before: Ledger, after: Ledger, req: Request, reply: Reply)
    requires Inv(lib, before.(pending := None)) && req.SolanaBroadcast? && Completed(lib, before, after, req, reply)
    ensures reply.Permission? && !after.control.halted && after.pending.None?
    ensures reply.permission.Granted? ==>
      && Permitted(after, Recovery(req.id, req.attempt, reply.permission.broadcasts, reply.permission.at))
      && reply.permission.at == req.now
      && req.id in before.solana
      && reply.permission.broadcasts == before.solana[req.id].broadcasts + 1 <= MAX_SOLANA_RECOVERY_BROADCASTS
  {
    var l := before.(pending := None);
    assert SolanaOk(l.admissions, l.attempts, l.solana);
    hide Inv, SolanaOk, Retain, Commit, Permitted, TxSolanaBroadcast, CanonicalText;
    var o := TxSolanaBroadcast(lib, l, req.id, req.payload, req.attempt, req.now);
    assert o == Transact(lib, l, req);
    hide Transact;
    SolanaReply(lib, l, req);
    if reply.permission.Granted? {
      SolanaPermits(lib, l, req);
      assert Permitted(o.ledger, GrantOf(req, o.reply)[0]);
      PermittedFrame(o.ledger, after, GrantOf(req, o.reply)[0]);
      hide ReplyOk;
      SolanaGrantShape(lib, l, req);
      RetainSpec(lib, l, req.id, req.payload);
      var k := Retain(lib, l, req.id, req.payload).value.value;
      CommitSpec(l, l.(solana := l.solana[req.id := SolanaRow(k.digest, k.broadcasts + 1, req.now)]),
                 Success(Permission(Granted(k.broadcasts + 1, req.now))));
      GrantBudget(lib, l, req);
    }
  }

  lemma PrepareCompleted(lib: Libraries, before: Ledger, after: Ledger, id: string, payload: Json, reply: Reply)
    requires Inv(lib, before.(pending := None)) && Completed(lib, before, after, PrepareSolana(id, payload), reply)
    ensures reply.Restored?
    ensures reply.retained.Some? ==> id in after.solana && Holds(after.admissions, id, reply.retained.value.key)
    ensures reply.retained.None? ==> after == before.(pending := None)
  {
    var l := before.(pending := None);
    assert SolanaOk(l.admissions, l.attempts, l.solana);
    hide Inv, SolanaOk, Retain, Commit;
    RetainSpec(lib, l, id, payload);
    var stored := Retain(lib, l, id, payload);
    if stored.Success? && stored.value.Some? {
      CommitSpec(l, l.(solana := l.solana[id := SolanaRow(stored.value.value.digest, 0, 0)]),
                 Success(Restored(stored.value)));
    }
  }

  lemma GrantBudget(lib: Libraries, l: Ledger, req: Request)
    requires req.SolanaBroadcast?
             && GrantOf(req, TxSolanaBroadcast(lib, l, req.id, req.payload, req.attempt, req.now).reply) != []
    ensures var stored := Retain(lib, l, req.id, req.payload);
            stored.Success? && stored.value.Some? && stored.value.value.broadcasts < MAX_SOLANA_RECOVERY_BROADCASTS
  {
    hide Retain, Commit, CanonicalText, Fits;
  }

  lemma RunExtends(lib: Libraries, states: seq<World>, events: seq<Event>, e: Event)
    requires SafeRun(lib, states, events) && Enabled(states[|states| - 1], e)
    ensures SafeRun(lib, states + [Next(lib, states[|states| - 1], e)], events + [e])
  {
    hide Safe, Next, Enabled;
    var longer, more := states + [Next(lib, states[|states| - 1], e)], events + [e];
    forall i | 0 <= i < |more| ensures StepAt(lib, longer, more, i) {
      if i < |events| { assert StepAt(lib, states, events, i); }
    }
  }

  lemma ProceedSpec(w: World, k: Then)
    ensures Proceed(w, k) == w.(pc := Proceeded(k), grants := w.grants + Gives(k))
  {
    assert w.grants + [] == w.grants;
  }

  lemma FailSpec(w: World, k: Then, e: Error)
    ensures Fail(w, k, e) == w.(pc := Failed(k, e))
  {
    assert w.grants + [] == w.grants;
  }

  /** A command or transaction succeeds, is lost, or takes effect without saying so. */
  method AnyFault() returns (fault: Fault)
    ensures fault.NoFault? || fault.Lost? || fault.Late?
  {
    if * { fault := NoFault; } else if * { fault := Lost; } else { fault := Late; }
  }

  class RecoveryJournal {
    const lib: Libraries
    var ledger: Ledger
    var redis: Redis
    var failed: bool
    var trace: seq<World>
    ghost var events: seq<Event>

    ghost predicate Valid()
      reads this
    {
      && |trace| > 0 && SafeRun(lib, trace, events)
      && Now().ledger == ledger && Now().redis == redis && Now().failed == failed
    }

    function Now(): World
      requires |trace| > 0
      reads this`trace
    {
      trace[|trace| - 1]
    }

    /** `open`: a new owner process, with an unlatched gate, about to run its start-up checks. */
    constructor (lib: Libraries, ledger: Ledger, redis: Redis, states: seq<World>, ghost steps: seq<Event>)
      requires SafeRun(lib, states, steps) && states[|states| - 1].ledger == ledger
               && states[|states| - 1].redis == redis
      requires states[|states| - 1].pc.Down?
      ensures Valid() && this.lib == lib && this.ledger == ledger && this.redis == redis && !failed
      ensures Now().pc == Gate(Serve(Startup)) && Now().grants == states[|states| - 1].grants && states <= trace
    {
      var open := Open(ledger.control.namespace);
      this.lib, this.ledger, this.redis, this.failed := lib, ledger, redis, false;
      this.trace, this.events := states + [Next(lib, states[|states| - 1], open)], steps + [open];
      new;
      RunExtends(lib, states, steps, open);
    }

    /** One step of the protocol. */
    method Tick(e: Event)
      requires |trace| > 0 && SafeRun(lib, trace, events) && Enabled(Now(), e)
      modifies this`trace, this`events
      ensures |trace| > 0 && SafeRun(lib, trace, events) && Now() == Next(lib, old(Now()), e) && old(trace) <= trace
    {
      hide Safe, StepAt, Next, Enabled;
      RunExtends(lib, trace, events, e);
      trace, events := trace + [Next(lib, Now(), e)], events + [e];
    }

    /** Redis restarts, changes role, loses, rolls back or is handed arbitrary markers. */
    method Weather()
      requires Valid()
      modifies this`redis, this`trace, this`events
      ensures Valid() && old(trace) <= trace
      ensures Now() == old(Now()).(redis := redis)
    {
      hide SafeRun, ActStep;
      var r: Redis := *;
      redis := r;
      Tick(Restart(r.runId));
      Tick(ChangeRole(r.master));
      Tick(Forge(r.markers));
    }

    /** Latch the process, then try to make the halt durable; an earlier reason is kept. */
    method Halt(ghost k: Then, reason: Reason, fault: Fault) returns (e: Error)
      requires Valid() && Enabled(Now(), Act(fault)) && ActStep(lib, Now(), fault) == Stop(Now(), k, reason)
      modifies this
      ensures Valid() && old(trace) <= trace && failed && e == RecoveryRequired
      ensures (ledger == old(ledger) || ledger == Halted(old(ledger), reason)) && SameRecord(old(ledger), ledger)
      ensures Now().pc == Failed(k, e) && Now().grants == old(Now().grants)
    {
      hide SafeRun, ActStep, Next, Enabled;
      ActNext(lib, Now(), fault);
      failed := true;
      Tick(Act(fault));
      e := HaltLatched(k, reason);
    }

    /** Only the current token, or a recorded predecessor, in the same primary process, lets an operation on. */
    method ObserveCheckpoint(ghost k: Then, current: Control, pending: Option<PendingUpdate>)
      returns (r: Result<(), Error>)
      requires Valid()
               && (Now().pc == Observing(k, current, pending) || (pending.None? && Now().pc == Settling(k, current)))
      modifies this
      ensures Valid() && old(trace) <= trace
      ensures r.Success? && pending.Some? ==>
                Now() == old(Now()).(redis := redis, pc := Publishing(k, current, pending.value))
      ensures r.Success? && pending.None? ==>
                Now() ==
                  old(Now()).(redis := redis, seen := Some(current), pc := Proceeded(k),
                              grants := old(Now()).grants + Gives(k))
                && Attached(redis, current)
      ensures r.Failure? ==>
                SameRecord(old(ledger), ledger) && Now().pc == Failed(k, r.error) && Now().grants == old(Now()).grants
    {
      hide SafeRun, ActStep, Next, Enabled, Proceed, SameRecord, Halted;
      SameItself(ledger);
      Weather();
      var fault := AnyFault();
      ObserveActs(lib, Now(), fault);
      ProceedSpec(Now().(seen := Some(current)), k);
      FailSpec(Now(), k, PublicationPending);
      if !fault.NoFault? {
        if pending.Some? {
          Tick(Act(fault));
          return Failure(PublicationPending);
        }
        var e := Halt(k, ContinuityUnavailable, fault);
        return Failure(e);
      }
      var marker := Marker(redis, KeyOf(current));
      var matchesTarget := marker == Some(TokenOf(current));
      var matchesPrevious := pending.Some? && marker == Some(pending.value.previous);
      if !matchesTarget && !matchesPrevious {
        var e := Halt(k, CheckpointMismatch, fault);
        return Failure(e);
      }
      if !redis.master {
        var e := Halt(k, RoleChanged, fault);
        return Failure(e);
      }
      if redis.runId != current.runId {
        var e := Halt(k, ProcessChanged, fault);
        return Failure(e);
      }
      Tick(Act(fault));
      return Success(());
    }

    /** Publish the recorded transition, look again, and only then acknowledge it. */
    method CompletePending(ghost k: Then, current: Control, pending: PendingUpdate) returns (r: Result<(), Error>)
      requires Valid() && Now().pc == Publishing(k, current, pending)
      modifies this
      ensures Valid() && old(trace) <= trace
      ensures r.Success? ==>
                ledger == old(ledger).(pending := None) && !ledger.control.halted && Attached(redis, current)
                && failed == old(failed) && Now().pc == Proceeded(k) && Now().grants == old(Now()).grants + Gives(k)
                && Now().seen == Some(current)
      ensures r.Failure? ==>
                SameRecord(old(ledger), ledger) && Now().pc == Failed(k, r.error) && Now().grants == old(Now()).grants
    {
      hide SafeRun, ActStep, Next, Enabled, SameRecord;
      SameItself(ledger);
      r := Publish(k, current, pending);
      if r.Failure? { return; }
      r := ConfirmPublished(k, current, pending);
      if r.Failure? { return; }
      r := AcknowledgePending(k, current, pending);
      if r.Failure? { return; }
      r := ObserveCheckpoint(k, current, None);
    }

    /** Delete exactly the expected record; from here on no predecessor is tolerated. */
    method AcknowledgePending(ghost k: Then, current: Control, pending: PendingUpdate) returns (r: Result<(), Error>)
      requires Valid() && Now().pc == Acknowledging(k, current, pending)
      modifies this
      ensures Valid() && old(trace) <= trace
      ensures r.Success? ==> ledger == old(ledger).(pending := None) && !ledger.control.halted && failed == old(failed)
                             && Now().pc == Settling(k, current) && Now().grants == old(Now()).grants
      ensures r.Failure? ==>
                SameRecord(old(ledger), ledger) && Now().pc == Failed(k, r.error) && Now().grants == old(Now()).grants
    {
      hide SafeRun, ActStep, Next, Enabled, PendingValid, SameRecord, Halted;
      SameItself(ledger);
      var fault := AnyFault();
      AcknowledgeActs(lib, Now(), fault);
      var acknowledged := Acknowledge(ledger, pending);
      if fault.Lost? || (acknowledged.Failure? && (fault.Late? || acknowledged.error.Storage?)) {
        var e := Halt(k, LedgerUnavailable, fault);
        return Failure(e);
      }
      if acknowledged.Failure? {
        FailSpec(Now(), k, acknowledged.error);
        Tick(Act(fault));
        return Failure(acknowledged.error);
      }
      ledger := acknowledged.value;
      Tick(Act(fault));
      if fault.Late? {
        var e := HaltLatched(k, LedgerUnavailable);
        return Failure(e);
      }
      return Success(());
    }

    /** The compare-and-set script; its reply may be lost although it was applied. */
    method Publish(ghost k: Then, current: Control, pending: PendingUpdate) returns (r: Result<(), Error>)
      requires Valid() && Now().pc == Publishing(k, current, pending)
      modifies this
      ensures Valid() && old(trace) <= trace
      ensures r.Success? ==>
                ledger == old(ledger) && failed == old(failed) && Now().pc == Confirming(k, current, pending)
                && Now().grants == old(Now()).grants && Marker(redis, pending.redisKey) == Some(pending.target)
      ensures r.Failure? ==>
                SameRecord(old(ledger), ledger) && Now().pc == Failed(k, r.error) && Now().grants == old(Now()).grants
    {
      hide SafeRun, ActStep, Next, Enabled, SameRecord, Halted, Apply;
      SameItself(ledger);
      Weather();
      var fault := AnyFault();
      PublishActs(lib, Now(), fault);
      var script := Cas(pending.redisKey, pending.previous, pending.target);
      if !fault.Lost? { redis := Apply(redis, script); }
      if fault.NoFault? && Marker(redis, pending.redisKey) != Some(pending.target) {
        Tick(Act(fault));
        var e := HaltLatched(k, CheckpointMismatch);
        return Failure(e);
      }
      Tick(Act(fault));
      return if fault.NoFault? then Success(()) else Failure(PublicationPending);
    }

    /** The script's reply alone does not count: the marker is read back from the same primary process. */
    method ConfirmPublished(ghost k: Then, current: Control, pending: PendingUpdate) returns (r: Result<(), Error>)
      requires Valid() && Now().pc == Confirming(k, current, pending)
      modifies this
      ensures Valid() && old(trace) <= trace
      ensures r.Success? ==>
                ledger == old(ledger) && failed == old(failed) && Now().pc == Acknowledging(k, current, pending)
                && Now().grants == old(Now()).grants
      ensures r.Failure? ==>
                SameRecord(old(ledger), ledger) && Now().pc == Failed(k, r.error) && Now().grants == old(Now()).grants
    {
      hide SafeRun, ActStep, Next, Enabled, SameRecord, Halted;
      SameItself(ledger);
      Weather();
      var fault := AnyFault();
      ConfirmActs(lib, Now(), fault);
      FailSpec(Now(), k, PublicationPending);
      if !fault.NoFault? {
        Tick(Act(fault));
        return Failure(PublicationPending);
      }
      if Marker(redis, KeyOf(current)) != Some(pending.target) {
        var e := Halt(k, CheckpointMismatch, fault);
        return Failure(e);
      }
      if !redis.master {
        var e := Halt(k, RoleChanged, fault);
        return Failure(e);
      }
      if redis.runId != pending.runId {
        var e := Halt(k, ProcessChanged, fault);
        return Failure(e);
      }
      Tick(Act(fault));
      return Success(());
    }

    /** Finish a halt whose latch is part of the step already taken. */
    method HaltLatched(ghost k: Then, reason: Reason) returns (e: Error)
      requires |trace| > 0 && SafeRun(lib, trace, events) && Now().ledger == ledger && Now().redis == redis
               && Now().pc == Halting(k, reason) && Now().failed
      modifies this
      ensures Valid() && old(trace) <= trace && failed && e == RecoveryRequired
      ensures (ledger == old(ledger) || ledger == Halted(old(ledger), reason)) && SameRecord(old(ledger), ledger)
      ensures Now().pc == Failed(k, e) && Now().grants == old(Now().grants)
    {
      hide SafeRun, ActStep, Next, Enabled;
      failed := true;
      Weather();
      var lost: bool := *;
      if !lost { ledger := Halted(ledger, reason); }
      HaltActs(lib, Now(), if lost then Lost else NoFault);
      Tick(Act(if lost then Lost else NoFault));
      e := RecoveryRequired;
    }

    /** Look at Redis, and finish the recorded transition if there is one. */
    method ConfirmCheckpoint(ghost k: Then, current: Control, pending: Option<PendingUpdate>)
      returns (r: Result<(), Error>)
      requires Valid() && Now().pc == Observing(k, current, pending)
      requires pending.None? ==> ledger.pending.None? && !ledger.control.halted
      modifies this
      ensures Valid() && old(trace) <= trace
      ensures r.Success? ==>
                ledger == old(ledger).(pending := None) && !ledger.control.halted && failed == old(failed)
                && Attached(redis, current)
                && Now().pc == Proceeded(k) && Now().grants == old(Now()).grants + Gives(k)
                && Now().seen == Some(current)
      ensures r.Failure? ==>
                SameRecord(old(ledger), ledger) && Now().pc == Failed(k, r.error) && Now().grants == old(Now()).grants
    {
      hide SafeRun, SameRecord, Attached;
      r := ObserveCheckpoint(k, current, pending);
      if r.Failure? || pending.None? { return; }
      r := CompletePending(k, current, pending.value);
    }

    /**
     * The gate every operation passes: an unlatched process, a ledger that is not halted, and a confirmed checkpoint.
     */
    method HealthyLocked(ghost k: Then) returns (r: Result<Control, Error>)
      requires Valid() && Now().pc == Gate(k)
      modifies this
      ensures Valid() && old(trace) <= trace
      ensures r.Success? ==>
                ledger == old(ledger).(pending := None) && r.value == ledger.control && !ledger.control.halted
                && !failed && Attached(redis, ledger.control)
                && Now().pc == Proceeded(k) && Now().grants == old(Now()).grants + Gives(k)
                && Now().seen == Some(ledger.control)
      ensures r.Failure? ==>
                SameRecord(old(ledger), ledger) && Now().pc == Failed(k, r.error) && Now().grants == old(Now()).grants
    {
      hide SafeRun, ActStep, Next, Enabled, PendingValid, LoadPending, SameRecord, Halted, Attached, TokenOf, KeyOf;
      SameItself(ledger);
      LoadMatches(lib, trace, events);
      var fault := AnyFault();
      GateActs(lib, Now(), fault);
      FailSpec(Now(), k, RecoveryRequired);
      FailSpec(Now().(failed := true), k, RecoveryRequired);
      if failed {
        Tick(Act(fault));
        return Failure(RecoveryRequired);
      }
      var pending := LoadPending(ledger);
      if !fault.NoFault? || pending.Failure? {
        var e := Halt(k, LedgerUnavailable, fault);
        return Failure(e);
      }
      var current := ledger.control;
      if current.halted {
        failed := true;
        Tick(Act(fault));
        return Failure(RecoveryRequired);
      }
      Tick(Act(fault));
      var confirmed := ConfirmCheckpoint(k, current, pending.value);
      if confirmed.Failure? { return Failure(confirmed.error); }
      return Success(current);
    }

    /** Carry a committed transition to Redis. */
    method Mirror(ghost k: Then, previous: Control) returns (r: Result<(), Error>)
      requires Valid() && Now().pc == MirrorReading(k, previous)
      modifies this
      ensures Valid() && old(trace) <= trace
      ensures r.Success? ==>
                ledger == old(ledger).(pending := None) && !ledger.control.halted && failed == old(failed)
                && Attached(redis, ledger.control)
                && Now().pc == Proceeded(k) && Now().grants == old(Now()).grants + Gives(k)
                && Now().seen == Some(ledger.control)
      ensures r.Failure? ==>
                SameRecord(old(ledger), ledger) && Now().pc == Failed(k, r.error) && Now().grants == old(Now()).grants
    {
      hide SafeRun, ActStep, Next, Enabled, PendingValid, LoadPending, SameRecord, Halted, Attached, TokenOf, KeyOf;
      SameItself(ledger);
      var fault := AnyFault();
      MirrorActs(lib, Now(), fault);
      var pending := LoadPending(ledger);
      if !fault.NoFault? || pending.Failure? || pending.value.None?
         || pending.value.value.previous != TokenOf(previous) {
        var e := Halt(k, LedgerUnavailable, fault);
        return Failure(e);
      }
      var current := ledger.control;
      Tick(Act(fault));
      r := ConfirmCheckpoint(k, current, pending.value);
    }

    /** The transaction of one operation, after the gate: commit, then mirror, or answer, or halt. */
    method Transaction(req: Request) returns (r: Result<Reply, Error>)
      requires Valid() && Now().pc == Transacting(req) && !Starting(req) && !failed && !ledger.control.halted
      requires ledger.pending.None? && Now().seen == Some(ledger.control) && Attached(redis, ledger.control)
      modifies this
      ensures Valid() && old(trace) <= trace && Now().pc.Idle? && Now().grants == old(Now()).grants + GrantOf(req, r)
      ensures r.Success? ==>
                Completed(lib, old(ledger), ledger, req, r.value) && !failed && Now().seen == Some(ledger.control)
      ensures OnceOnly(lib, old(ledger), req, ledger)
    {
      hide SafeRun, ActStep, Next, Enabled, Transact;
      var fault := AnyFault();
      TransactActs(lib, Now(), fault);
      var previous, outcome := ledger.control, Transact(lib, ledger, req);
      SameStart(lib, ledger, req);
      TransactMoved(lib, ledger, req);
      if fault.Lost? || (fault.NoFault? && outcome.reply == Failure(Storage)) {
        r := StorageFailed(req, fault);
        return;
      }
      ledger := outcome.ledger;
      if fault.Late? {
        r := CommitUnknown(req, fault, outcome.ledger);
        return;
      }
      if outcome.advanced {
        Tick(Act(fault));
        var mirrored := Mirror(Return(req, outcome.reply), previous);
        if mirrored.Failure? { return Failure(mirrored.error); }
        return outcome.reply;
      }
      if outcome.ledger.control.halted {
        failed := true;
        FailSpec(Now().(ledger := outcome.ledger, failed := true), Serve(req), RecoveryRequired);
        Tick(Act(fault));
        return Failure(RecoveryRequired);
      }
      Tick(Act(fault));
      return outcome.reply;
    }

    /** A transaction that failed without effect halts the ledger, except for the read-only binding check. */
    method StorageFailed(req: Request, fault: Fault) returns (r: Result<Reply, Error>)
      requires Valid() && Now().pc == Transacting(req) && Enabled(Now(), Act(fault)) && !Starting(req)
      requires ActStep(lib, Now(), fault) == StorageFailure(Now(), req)
      modifies this
      ensures Valid() && old(trace) <= trace && r.Failure?
      ensures SameRecord(old(ledger), ledger) && Now().pc.Idle? && Now().grants == old(Now()).grants
    {
      hide SafeRun, ActStep, Next, Enabled;
      if req.ValidateBinding? {
        ActNext(lib, Now(), fault);
        FailSpec(Now(), Serve(req), Storage);
        Tick(Act(fault));
        return Failure(Storage);
      }
      var e := Halt(Serve(req), LedgerUnavailable, fault);
      return Failure(e);
    }

    /** A commit whose outcome was not reported: the ledger moved, the caller is told nothing good. */
    method CommitUnknown(req: Request, fault: Fault, committed: Ledger) returns (r: Result<Reply, Error>)
      requires |trace| > 0 && SafeRun(lib, trace, events) && Now().redis == redis && Now().failed == failed
               && ledger == committed
      requires Now().pc == Transacting(req) && Enabled(Now(), Act(fault)) && !Starting(req)
      requires Next(lib, Now(), Act(fault)) == StorageFailure(Now().(ledger := committed), req)
      modifies this
      ensures Valid() && old(trace) <= trace && r.Failure?
      ensures SameRecord(committed, ledger) && Now().pc.Idle? && Now().grants == old(Now()).grants
    {
      hide SafeRun, ActStep, Next, Enabled;
      FailSpec(Now().(ledger := committed), Serve(req), Storage);
      Tick(Act(fault));
      if req.ValidateBinding? { return Failure(Storage); }
      var e := HaltLatched(Serve(req), LedgerUnavailable);
      return Failure(e);
    }

    /** Any operation, end to end: argument checks, gate, one transaction, mirror. */
    method Perform(req: Request) returns (r: Result<Reply, Error>)
      requires Valid() && Now().pc.Idle? && !Starting(req)
      modifies this
      ensures Valid() && old(trace) <= trace && Now().pc.Idle? && Now().grants == old(Now()).grants + GrantOf(req, r)
      ensures r.Success? ==>
                Completed(lib, old(ledger), ledger, req, r.value) && Precheck(req).Success? && !failed
                && Now().seen == Some(ledger.control)
      ensures OnceOnly(lib, old(ledger), req, ledger)
    {
      hide SafeRun, ActStep, Transact, Precheck, Next, Enabled, OnceOnly, Completed, SameRecord, Attached;
      SameIsOnce(lib, ledger, req);
      var checked := Precheck(req);
      if checked.Failure? { return Failure(checked.error); }
      CallActs(lib, Now(), req);
      Tick(Call(req));
      var gate := HealthyLocked(Serve(req));
      SameIsOnce(lib, old(ledger), req);
      if gate.Failure? { return Failure(gate.error); }
      if req.Health? {
        HealthCompletes(lib, old(ledger));
        return Success(Done);
      }
      r := Transaction(req);
      StartIsAcknowledged(lib, old(ledger), req, ledger);
    }

    /** `ensure_healthy`. */
    method EnsureHealthy() returns (r: Result<(), Error>)
      requires Valid() && Now().pc.Idle?
      modifies this
      ensures Valid() && old(trace) <= trace && Now().pc.Idle? && Now().grants == old(Now()).grants
      ensures r.Success? ==> ledger == old(ledger).(pending := None) && !ledger.control.halted && !failed
      ensures SameRecord(old(ledger), ledger)
    {
      hide SafeRun, Precheck;
      var reply := Perform(Health);
      assert old(ledger).(pending := None).(pending := None) == old(ledger).(pending := None);
      r := if reply.Success? then Success(()) else Failure(reply.error);
    }

    /** Admit an intent once; every later reservation of the id returns the payload of the first. */
    method ReserveAdmission(kind: Kind, id: string, fingerprint: Digest, payload: Json)
      returns (r: Result<(Json, bool), Error>)
      requires Valid() && Now().pc.Idle?
      modifies this
      ensures Valid() && old(trace) <= trace && Now().pc.Idle? && Now().grants == old(Now()).grants
      ensures r.Success? ==>
        && id in ledger.admissions && ledger.admissions[id].payload == r.value.0
        && (r.value.1 <==> ledger.admissions[id].state.Terminal?)
        && ledger.admissions[id].kind == kind && ledger.admissions[id].fingerprint == fingerprint
        && !ledger.admissions[id].state.Quarantined?
        && (id in old(ledger).admissions ==> ledger == old(ledger).(pending := None))
        && (id !in old(ledger).admissions ==>
              r.value == (payload, false)
              && ledger.admissions ==
                old(ledger).admissions[id := Admission(kind, fingerprint, payload, Admitted, None)])
      ensures OnceOnly(lib, old(ledger), Reserve(kind, id, fingerprint, payload), ledger)
    {
      hide SafeRun, Precheck, Transact, OnceOnly, Completed;
      var reply := Perform(Reserve(kind, id, fingerprint, payload));
      if reply.Failure? { return Failure(reply.error); }
      ReserveCompleted(lib, old(ledger), ledger, kind, id, fingerprint, payload, reply.value);
      r := Success((reply.value.payload, reply.value.terminal));
    }

    /**
     * The last gate before the network: on success the exact wire is durable, the id owns the key, and the permission
     * is on record.
     */
    method BeforeBroadcast(kind: Kind, id: string, key: string, attempt: Json) returns (r: Result<(), Error>)
      requires Valid() && Now().pc.Idle?
      modifies this
      ensures Valid() && old(trace) <= trace && Now().pc.Idle?
      ensures r.Success? ==>
        && ValidKey(kind, key) && Permitted(ledger, Ordinary(id, key, attempt)) && ledger.admissions[id].kind == kind
        && Now().grants == old(Now()).grants + [Ordinary(id, key, attempt)]
        && ledger.pending.None? && !ledger.control.halted && !failed && Now().seen == Some(ledger.control)
        && ( ledger == old(ledger).(pending := None)
          || ( ledger.attempts == old(ledger).attempts + [Attempt(id, key, AttemptDigest(attempt), attempt)]
               && ledger.control.checkpoint == old(ledger).control.checkpoint + 1))
      ensures r.Failure? ==> Now().grants == old(Now()).grants
      ensures OnceOnly(lib, old(ledger), Broadcast(kind, id, key, attempt), ledger)
    {
      var req := Broadcast(kind, id, key, attempt);
      assert Precheck(req).Success? ==> ValidKey(kind, key);
      hide SafeRun, Precheck, Transact, OnceOnly, Completed, Permitted;
      StartInv(lib, trace, events);
      var reply := Perform(req);
      if reply.Failure? {
        assert old(Now()).grants + [] == old(Now()).grants;
        return Failure(reply.error);
      }
      BroadcastCompleted(lib, old(ledger), ledger, req, reply.value);
      r := Success(());
    }

    /**
     * Record the settlement of one of the id's own attempts; a different settlement of the same id halts the ledger.
     */
    method RecordTerminalEvidence(kind: Kind, id: string, evidence: Json) returns (r: Result<(), Error>)
      requires Valid() && Now().pc.Idle?
      modifies this
      ensures Valid() && old(trace) <= trace && Now().pc.Idle? && Now().grants == old(Now()).grants
      ensures r.Success? ==>
        && IsTerminal(ledger.admissions, id) && FirstWitness(ledger.evidence, id).Some?
        && CanonicalText(TerminalIdentity(FirstWitness(ledger.evidence, id).value)) ==
          CanonicalText(TerminalIdentity(evidence))
        && (IsTerminal(old(ledger).admissions, id) ==> ledger == old(ledger).(pending := None))
      ensures OnceOnly(lib, old(ledger), RecordTerminal(kind, id, evidence), ledger)
    {
      hide SafeRun, Precheck, Transact, OnceOnly, Completed, CanonicalText, FirstWitness;
      StartInv(lib, trace, events);
      var reply := Perform(RecordTerminal(kind, id, evidence));
      if reply.Failure? { return Failure(reply.error); }
      TerminalCompleted(lib, old(ledger), ledger, kind, id, evidence, reply.value);
      r := Success(());
    }

    /** Compare-and-swap of a chain's finality checkpoint: accepted means stored, at this commit. */
    method CommitFinality(chain: nat, expected: Option<F.Evidence>, finality: F.Evidence)
      returns (r: Result<bool, Error>)
      requires Valid() && Now().pc.Idle?
      modifies this
      ensures Valid() && old(trace) <= trace && Now().pc.Idle? && Now().grants == old(Now()).grants
      ensures r == Success(true) ==> Stored(ledger, chain, finality)
      ensures r == Success(false) ==> ledger == old(ledger).(pending := None)
      ensures OnceOnly(lib, old(ledger), CommitCheckpoint(chain, expected, finality), ledger)
    {
      hide SafeRun, Precheck, Transact, OnceOnly, Completed;
      var reply := Perform(CommitCheckpoint(chain, expected, finality));
      if reply.Failure? { return Failure(reply.error); }
      CheckpointCompleted(lib, old(ledger), ledger, chain, expected, finality, reply.value);
      r := Success(reply.value.accepted);
    }

    /** Fence every later emission on a chain. */
    method HaltChainDurably(chain: nat) returns (r: Result<(), Error>)
      requires Valid() && Now().pc.Idle?
      modifies this
      ensures Valid() && old(trace) <= trace && Now().pc.Idle? && Now().grants == old(Now()).grants
      ensures r.Success? ==>
                ledger.halts == old(ledger).halts + {Decimal(chain)} && ledger.checkpoints == old(ledger).checkpoints
      ensures OnceOnly(lib, old(ledger), HaltChain(chain), ledger)
    {
      hide SafeRun, Precheck, OnceOnly;
      var reply := Perform(HaltChain(chain));
      if reply.Failure? { return Failure(reply.error); }
      CommitSpec(old(ledger).(pending := None),
                 old(ledger).(pending := None, halts := old(ledger).halts + {Decimal(chain)}), Success(Done));
      r := Success(());
    }

    /** Spend one recovery broadcast of a retained Solana attempt. */
    method BeforeSolanaRecoveryBroadcast(id: string, payload: Json, attempt: Json, now: nat)
      returns (r: Result<SolanaPermission, Error>)
      requires Valid() && Now().pc.Idle?
      modifies this
      ensures Valid() && old(trace) <= trace && Now().pc.Idle?
      ensures r.Success? && r.value.Granted? ==>
        && Permitted(ledger, Recovery(id, attempt, r.value.broadcasts, r.value.at)) && ledger.pending.None?
        && !ledger.control.halted
        && Now().grants == old(Now()).grants + [Recovery(id, attempt, r.value.broadcasts, r.value.at)]
        && r.value.at == now && id in old(ledger).solana
        && r.value.broadcasts == old(ledger).solana[id].broadcasts + 1 <= MAX_SOLANA_RECOVERY_BROADCASTS
      ensures !(r.Success? && r.value.Granted?) ==> Now().grants == old(Now()).grants
      ensures OnceOnly(lib, old(ledger), SolanaBroadcast(id, payload, attempt, now), ledger)
    {
      hide SafeRun, Precheck, Transact, OnceOnly, Completed, Permitted;
      StartInv(lib, trace, events);
      var req := SolanaBroadcast(id, payload, attempt, now);
      var reply := Perform(req);
      if reply.Failure? { return Failure(reply.error); }
      SolanaCompleted(lib, old(ledger), ledger, req, reply.value);
      r := Success(reply.value.permission);
    }

    /** Put a retained Solana attempt into durable recovery mode; this grants nothing. */
    method PrepareSolanaRestore(id: string, payload: Json) returns (r: Result<Option<RetainedAttempt>, Error>)
      requires Valid() && Now().pc.Idle?
      modifies this
      ensures Valid() && old(trace) <= trace && Now().pc.Idle? && Now().grants == old(Now()).grants
      ensures r.Success? && r.value.Some? ==> id in ledger.solana && Holds(ledger.admissions, id, r.value.value.key)
      ensures r.Success? && r.value.None? ==> ledger == old(ledger).(pending := None)
      ensures OnceOnly(lib, old(ledger), PrepareSolana(id, payload), ledger)
    {
      hide SafeRun, Precheck, Transact, OnceOnly, Completed;
      StartInv(lib, trace, events);
      var reply := Perform(PrepareSolana(id, payload));
      if reply.Failure? { return Failure(reply.error); }
      PrepareCompleted(lib, old(ledger), ledger, id, payload, reply.value);
      r := Success(reply.value.retained);
    }

    /** The check before signing: the id may still be bound to this key, and nobody else holds it. It grants nothing. */
    method ValidateReplayBinding(kind: Kind, id: string, key: string) returns (r: Result<(), Error>)
      requires Valid() && Now().pc.Idle?
      modifies this
      ensures Valid() && old(trace) <= trace && Now().pc.Idle? && Now().grants == old(Now()).grants
      ensures r.Success? ==>
        && ledger == old(ledger).(pending := None) && id in ledger.admissions && ledger.admissions[id].kind == kind
        && ledger.admissions[id].state.Admitted?
        && (ledger.admissions[id].replayKey.Some? ==> ledger.admissions[id].replayKey.value == key)
        && !TakenByOther(ledger.admissions, id, key) && !ChainHalted(ledger, kind, key)
      ensures SameRecord(old(ledger), ledger)
    {
      hide SafeRun, Precheck;
      var reply := Perform(ValidateBinding(kind, id, key));
      BindingReadsOnly(lib, old(ledger), kind, id, key);
      if reply.Failure? { return Failure(reply.error); }
      r := Success(());
    }

    /** Raise the schema and record the transition from the older token; says whether there was anything to do. */
    method Migrate() returns (r: Result<bool, Error>)
      requires Valid() && Now().pc == Transacting(Startup) && !ledger.control.halted && ledger.pending.None?
      modifies this
      ensures Valid() && old(trace) <= trace && Now().grants == old(Now()).grants
      ensures r == Success(true) ==>
                Now().pc == Gate(Serve(Opened)) && ledger == TxMigrate(old(ledger)).ledger && failed == old(failed)
                && ledger.control == old(ledger).control.(schema := SCHEMA)
                && old(ledger) == ledger.(pending := None, control := old(ledger).control)
      ensures r == Success(false) ==>
                Now().pc.Idle? && ledger == old(ledger) && ledger.control.schema == SCHEMA && failed == old(failed)
      ensures r.Failure? ==> Now().pc.Down?
    {
      hide SafeRun, ActStep, Next, Enabled;
      var fault := AnyFault();
      TransactActs(lib, Now(), fault);
      var outcome := TxMigrate(ledger);
      MigrateShape(lib, ledger);
      hide Transact, TxMigrate;
      if fault.Lost? || (fault.NoFault? && outcome.reply == Failure(Storage)) {
        var e := Halt(Serve(Startup), LedgerUnavailable, fault);
        return Failure(e);
      }
      ledger := outcome.ledger;
      Tick(Act(fault));
      if fault.Late? {
        var e := HaltLatched(Serve(Startup), LedgerUnavailable);
        return Failure(e);
      }
      return Success(outcome.advanced);
    }

    /** Behind the first gate: migrate, and pass the gate again if there was anything to migrate. */
    method MigrateBehindGate() returns (r: Result<(), Error>)
      requires Valid() && Now().pc == Transacting(Startup) && !ledger.control.halted && ledger.pending.None? && !failed
      modifies this
      ensures Valid() && old(trace) <= trace && Now().grants == old(Now()).grants
      ensures r.Success? ==>
        && Now().pc.Idle? && !failed && !ledger.control.halted
        && ledger == old(ledger).(control := old(ledger).control.(schema := SCHEMA))
      ensures r.Failure? ==> Now().pc.Down?
    {
      hide SafeRun, ActStep, Next, Enabled, TxMigrate, SameRecord, Attached;
      var migrated := Migrate();
      if migrated.Failure? { return Failure(migrated.error); }
      if !migrated.value { return Success(()); }
      var gate := HealthyLocked(Serve(Opened));
      if gate.Failure? { return Failure(gate.error); }
      return Success(());
    }

    /**
     * Start-up: finish what an earlier process left pending, then bring an older ledger to the current schema, each
     * behind the gate.
     */
    method PrepareOwnedStartup() returns (r: Result<(), Error>)
      requires Valid() && Now().pc == Gate(Serve(Startup))
      modifies this
      ensures Valid() && old(trace) <= trace && Now().grants == old(Now()).grants
      ensures r.Success? ==>
        && Now().pc.Idle? && !failed && !ledger.control.halted
        && ledger == old(ledger).(pending := None, control := old(ledger).control.(schema := SCHEMA))
      ensures r.Failure? ==> Now().pc.Down?
    {
      hide SafeRun, ActStep, Next, Enabled, SameRecord, Attached;
      var gate := HealthyLocked(Serve(Startup));
      if gate.Failure? { return Failure(gate.error); }
      r := MigrateBehindGate();
    }
  }

  lemma ActNext(lib: Libraries, w: World, fault: Fault)
    ensures Next(lib, w, Act(fault)) == ActStep(lib, w, fault)
  {
    hide ActStep;
  }

  /** In every reachable ledger the pending record reads back as it is. */
  lemma LoadMatches(lib: Libraries, states: seq<World>, events: seq<Event>)
    requires |states| > 0 && SafeRun(lib, states, events)
    ensures LoadPending(states[|states| - 1].ledger) == Success(states[|states| - 1].ledger.pending)
  {
    hide SafeRun, TablesOk;
    RunInv(lib, states, events, |states| - 1);
  }

  /** Behind the gate there is nothing pending and no halt, so migration moves the schema or finds it current. */
  lemma MigrateShape(lib: Libraries, l: Ledger)
    requires !l.control.halted && l.pending.None?
    ensures var o := TxMigrate(l);
            && Transact(lib, l, Startup) == o && !o.ledger.control.halted
            && (o.advanced ==>
              o.reply == Success(Done)
              && o.ledger == l.(control := l.control.(schema := SCHEMA), pending := o.ledger.pending))
            && (!o.advanced ==>
              o.ledger == l
              && (o.reply == Failure(Storage) || (o.reply == Success(Done) && l.control.schema == SCHEMA)))
  {}

  lemma BindingReadsOnly(lib: Libraries, l: Ledger, kind: Kind, id: string, key: string)
    ensures Committed(lib, l, ValidateBinding(kind, id, key)) == l.(pending := None)
    ensures forall after :: SameRecord(l.(pending := None), after) ==> SameRecord(l, after)
  {
    hide ChainHalted, TakenByOther;
  }

  lemma GateActs(lib: Libraries, w: World, fault: Fault)
    requires w.pc.Gate?
    ensures Enabled(w, Act(fault)) && Next(lib, w, Act(fault)) == ActStep(lib, w, fault) == ActGate(w, w.pc.k, fault)
  {
    hide ActGate;
  }

  lemma ObserveActs(lib: Libraries, w: World, fault: Fault)
    requires w.pc.Observing? || w.pc.Settling?
    ensures Enabled(w, Act(fault)) && Next(lib, w, Act(fault)) == ActStep(lib, w, fault)
    ensures ActStep(lib, w, fault) ==
              ActObserve(w, w.pc.k, w.pc.current, if w.pc.Observing? then w.pc.pending else None, fault)
  {
    hide Proceed, Observe;
  }

  /** The publish step: the script runs unless it was lost, and only a reported target goes on. */
  lemma PublishActs(lib: Libraries, w: World, fault: Fault)
    requires w.pc.Publishing?
    ensures Enabled(w, Act(fault))
    ensures var b, p := Next(lib, w, Act(fault)), w.pc.update;
            var redis := if fault.Lost? then w.redis else Apply(w.redis, Cas(p.redisKey, p.previous, p.target));
            var refused := fault.NoFault? && Marker(redis, p.redisKey) != Some(p.target);
            && b.ledger == w.ledger && b.grants == w.grants && b.redis == redis && b.failed == (w.failed || refused)
            && b.pc == if refused then Halting(w.pc.k, CheckpointMismatch)
                       else if fault.NoFault? then
                         Confirming(w.pc.k, w.pc.current, p) else Failed(w.pc.k, PublicationPending)
  {
    var m := Cas(w.pc.update.redisKey, w.pc.update.previous, w.pc.update.target);
    hide Apply, Effective;
    FailSpec(Send(w, m), w.pc.k, PublicationPending);
    FailSpec(Execute(Send(w, m), m), w.pc.k, PublicationPending);
  }

  lemma ConfirmActs(lib: Libraries, w: World, fault: Fault)
    requires w.pc.Confirming?
    ensures Enabled(w, Act(fault))
            && Next(lib, w, Act(fault)) == ActStep(lib, w, fault) ==
              ActConfirm(w, w.pc.k, w.pc.current, w.pc.update, fault)
  {
    hide ActConfirm;
  }

  lemma AcknowledgeActs(lib: Libraries, w: World, fault: Fault)
    requires w.pc.Acknowledging?
    ensures Enabled(w, Act(fault))
            && Next(lib, w, Act(fault)) == ActStep(lib, w, fault) ==
              ActAcknowledge(w, w.pc.k, w.pc.current, w.pc.update, fault)
  {
    hide ActAcknowledge;
  }

  lemma TransactActs(lib: Libraries, w: World, fault: Fault)
    requires w.pc.Transacting?
    ensures Enabled(w, Act(fault))
            && Next(lib, w, Act(fault)) == ActStep(lib, w, fault) == ActTransact(lib, w, w.pc.req, fault)
  {
    hide ActTransact;
  }

  lemma MirrorActs(lib: Libraries, w: World, fault: Fault)
    requires w.pc.MirrorReading?
    ensures Enabled(w, Act(fault))
            && Next(lib, w, Act(fault)) == ActStep(lib, w, fault) == ActMirror(w, w.pc.k, w.pc.previous, fault)
  {
    hide ActMirror;
  }

  lemma HaltActs(lib: Libraries, w: World, fault: Fault)
    requires w.pc.Halting?
    ensures Enabled(w, Act(fault)) && Next(lib, w, Act(fault)) ==
            (if fault.Lost? then w
              else w.(ledger := Halted(w.ledger, w.pc.reason))).(pc := Failed(w.pc.k, RecoveryRequired))
  {
    FailSpec(if fault.Lost? then w else w.(ledger := Halted(w.ledger, w.pc.reason)), w.pc.k, RecoveryRequired);
  }
}
