/** The commands an operator runs while no server owns the ledger: initialize, quarantine, reattach and recover. */
module Offline {
  import opened Wrappers
  import opened Ledger
  import opened Protocol
  import opened ProtocolInvariant
  import opened Runs
  import opened Journal

  lemma ReattachActs(lib: Libraries, w: World, fault: Fault)
    requires IsReattach(w.pc)
    ensures Enabled(w, Act(fault)) && Next(lib, w, Act(fault)) == ActReattach(w, fault)
  {
    hide ActReattach;
  }

  lemma RecoverActs(lib: Libraries, w: World, fault: Fault)
    requires IsRecover(w.pc)
    ensures Enabled(w, Act(fault)) && Next(lib, w, Act(fault)) == ActRecover(w, fault)
  {
    hide ActRecover;
  }

  lemma InitActs(lib: Libraries, w: World, fault: Fault)
    requires w.pc.InitPublishing? || w.pc.InitReleasing?
    ensures Enabled(w, Act(fault))
            && Next(lib, w, Act(fault)) == if w.pc.InitPublishing? then ActSetNx(w, InitReleasing, fault)
              else ActRelease(w, fault)
  {
    hide ActSetNx, ActRelease;
  }

  lemma StartActs(lib: Libraries, w: World, namespace: Option<string>)
    requires w.pc.Down?
    ensures Enabled(w, StartReattach(namespace))
            && Next(lib, w, StartReattach(namespace)) == w.(pc := ReattachReading(namespace))
    ensures Enabled(w, StartRecover(namespace))
            && Next(lib, w, StartRecover(namespace)) == w.(pc := RecoverReading(namespace))
  {
    hide ActStep;
  }

  class LedgerFile {
    const lib: Libraries
    var ledger: Ledger
    var redis: Redis
    ghost var trace: seq<World>
    ghost var events: seq<Event>

    ghost predicate Valid()
      reads this
    {
      |trace| > 0 && SafeRun(lib, trace, events) && Now().ledger == ledger && Now().redis == redis
    }

    ghost function Now(): World
      requires |trace| > 0
      reads this`trace
    {
      trace[|trace| - 1]
    }

    /** `initialize`, up to its commit: the ledger is created halted. */
    constructor (lib: Libraries, deployment: string, namespace: Option<string>, redis: Redis)
      ensures Valid() && this.lib == lib && this.redis == redis
              && ledger == InitialLedger(deployment, namespace, redis.runId)
      ensures ledger.control.halted && Now().pc == InitPublishing
    {
      this.lib, this.redis := lib, redis;
      ledger := InitialLedger(deployment, namespace, redis.runId);
      trace, events := [Initialized(deployment, namespace, redis)], [];
      new;
      InitializedSafe(lib, deployment, namespace, redis);
    }

    ghost method Tick(e: Event)
      requires |trace| > 0 && SafeRun(lib, trace, events) && Enabled(Now(), e)
      modifies this`trace, this`events
      ensures |trace| > 0 && SafeRun(lib, trace, events) && Now() == Next(lib, old(Now()), e) && old(trace) <= trace
    {
      hide Safe, StepAt, Next, Enabled;
      RunExtends(lib, trace, events, e);
      trace, events := trace + [Next(lib, Now(), e)], events + [e];
    }

    method Weather()
      requires Valid()
      modifies this`redis, this`trace, this`events
      ensures Valid() && old(trace) <= trace && Now() == old(Now()).(redis := redis)
    {
      hide SafeRun, ActStep;
      var r: Redis := *;
      redis := r;
      Tick(Restart(r.runId));
      Tick(ChangeRole(r.master));
      Tick(Forge(r.markers));
    }

    /** `initialize`, after its commit: publish the first marker, then release the ledger. */
    method FinishInitialize() returns (r: Result<(), Error>)
      requires Valid() && Now().pc == InitPublishing
      modifies this
      ensures Valid() && old(trace) <= trace && Now().pc.Down?
      ensures r.Success? ==>
                ledger == Unhalted(old(ledger)) && (KeyOf(ledger.control), TokenOf(ledger.control)) in Now().written
      ensures ledger == old(ledger)
              || (ledger == Unhalted(old(ledger)) && (KeyOf(ledger.control), TokenOf(ledger.control)) in Now().written)
    {
      hide SafeRun, ActStep, Next, Enabled;
      Weather();
      var fault := AnyFault();
      InitActs(lib, Now(), fault);
      var setNx := SetNx(KeyOf(ledger.control), TokenOf(ledger.control));
      var free := Effective(redis, setNx);
      if !fault.Lost? { redis := Apply(redis, setNx); }
      Tick(Act(fault));
      if !fault.NoFault? || !free { return Failure(RecoveryRequired); }
      fault := AnyFault();
      InitActs(lib, Now(), fault);
      if !fault.Lost? { ledger := Unhalted(ledger); }
      Tick(Act(fault));
      r := if fault.NoFault? then Success(()) else Failure(Storage);
    }

    /** A durable stop; an earlier reason is kept. */
    method QuarantineLedger()
      requires Valid() && Now().pc.Down?
      modifies this
      ensures Valid() && old(trace) <= trace && Now().pc.Down? && ledger == Halted(old(ledger), OperatorQuarantine)
    {
      hide SafeRun, ActStep;
      ledger := Halted(ledger, OperatorQuarantine);
      Tick(OperatorHalt);
    }

    /**
     * Adopt a restarted Redis that still holds the exact marker; pending record, process id and halt change in one
     * commit.
     */
    method Reattach(namespace: Option<string>) returns (r: Result<(), Error>)
      requires Valid() && Now().pc.Down?
      modifies this
      ensures Valid() && old(trace) <= trace && Now().pc.Down? && Now().grants == old(Now()).grants
      ensures ledger != old(ledger) ==>
                ReattachAllowed(old(ledger).control) && namespace == old(ledger).control.namespace
      ensures r.Success? ==>
        && ledger == TxReattach(old(ledger), ledger.control.runId) && ReattachAllowed(old(ledger).control)
        && Marker(redis, KeyOf(ledger.control)) == Some(TokenOf(ledger.control)) && redis.master
        && redis.runId == ledger.control.runId
    {
      hide SafeRun, ActStep, Enabled, Next, LoadPending;
      StartActs(lib, Now(), namespace);
      Tick(StartReattach(namespace));
      var c := ledger.control;
      var pending := LoadPending(ledger);
      var fault := AnyFault();
      ReattachActs(lib, Now(), fault);
      Tick(Act(fault));
      if !fault.NoFault? || pending.Failure? || c.namespace != namespace || !ReattachAllowed(c) {
        return Failure(RecoveryRequired);
      }
      Weather();
      fault := AnyFault();
      ReattachActs(lib, Now(), fault);
      Tick(Act(fault));
      if !fault.NoFault? || !redis.master || Marker(redis, KeyOf(c)) != Some(TokenOf(c)) {
        return Failure(RecoveryRequired);
      }
      r := AdoptProcess(c, pending.value, redis.runId);
    }

    method AdoptProcess(c: Control, pending: Option<PendingUpdate>, run: string) returns (r: Result<(), Error>)
      requires Valid() && Now().pc == ReattachCommitting(c, pending, run) && c == ledger.control
               && LoadPending(ledger) == Success(pending)
      modifies this
      ensures Valid() && old(trace) <= trace && Now().pc.Down? && Now().grants == old(Now()).grants
      ensures r.Success? ==>
                ledger == TxReattach(old(ledger), run) && Marker(redis, KeyOf(c)) == Some(TokenOf(c)) && redis.master
                && redis.runId == run
    {
      hide SafeRun, ActStep, Enabled, Next, LoadPending;
      var fault := AnyFault();
      ReattachActs(lib, Now(), fault);
      if !fault.Lost? { ledger := TxReattach(ledger, run); }
      Tick(Act(fault));
      if !fault.NoFault? { return Failure(Storage); }
      r := VerifyAdoption(c, run);
    }

    /** Look once more after the commit. */
    method VerifyAdoption(c: Control, run: string) returns (r: Result<(), Error>)
      requires Valid() && Now().pc == ReattachVerifying(c, run)
      modifies this
      ensures Valid() && old(trace) <= trace && Now().pc.Down? && Now().grants == old(Now()).grants
      ensures r.Success? ==>
                ledger == old(ledger) && Marker(redis, KeyOf(c)) == Some(TokenOf(c)) && redis.master
                && redis.runId == run
    {
      hide SafeRun, ActStep, Enabled, Next, LoadPending;
      Weather();
      var fault := AnyFault();
      ReattachActs(lib, Now(), fault);
      Tick(Act(fault));
      if !fault.NoFault? {
        r := FenceReattach(ContinuityUnavailable);
      } else if Marker(redis, KeyOf(c)) != Some(TokenOf(c)) {
        r := FenceReattach(CheckpointMismatch);
      } else if !redis.master {
        r := FenceReattach(RoleChanged);
      } else if redis.runId != run {
        r := FenceReattach(ProcessChanged);
      } else {
        r := Success(());
      }
    }

    /** Doubt after the commit never reports a healthy reattachment. */
    method FenceReattach(reason: Reason) returns (r: Result<(), Error>)
      requires Valid() && Now().pc == ReattachFencing(reason)
      modifies this
      ensures Valid() && old(trace) <= trace && Now().pc.Down? && Now().grants == old(Now()).grants && r.Failure?
      ensures ledger == old(ledger) || ledger == Halted(old(ledger), reason)
    {
      hide SafeRun, ActStep, Enabled, Next;
      var fault := AnyFault();
      ReattachActs(lib, Now(), fault);
      if !fault.Lost? { ledger := Halted(ledger, reason); }
      Tick(Act(fault));
      r := Failure(RecoveryRequired);
    }

    /**
     * Restore availability in a new, empty namespace; everything attempted and not terminal is quarantined for good.
     */
    method Recover(namespace: Option<string>) returns (r: Result<(), Error>)
      requires Valid() && Now().pc.Down?
      modifies this
      ensures Valid() && old(trace) <= trace && Now().pc.Down? && Now().grants == old(Now()).grants
      ensures ledger == old(ledger)
              || (RecoverAllowed(old(ledger), namespace) && RecoveredTo(old(ledger), namespace, ledger))
      ensures r.Success? ==>
                RecoverAllowed(old(ledger), namespace)
                && ledger == Unhalted(TxRecover(old(ledger), namespace, ledger.control.runId))
      ensures r.Success? ==> Attached(redis, ledger.control)
    {
      hide SafeRun, ActStep, Enabled, Next, RecoverAllowed, TxRecover;
      var run := BeginRecovery(namespace);
      if run.Failure? { return Failure(run.error); }
      var fault := AnyFault();
      RecoverActs(lib, Now(), fault);
      if !fault.Lost? { ledger := TxRecover(ledger, namespace, run.value); }
      Tick(Act(fault));
      RecoverRun(old(ledger), namespace, run.value);
      if !fault.NoFault? { return Failure(Storage); }
      r := PublishRecovery(old(ledger));
    }

    /** The checks before anything is written: a permitted recovery, an empty namespace and a primary. */
    method BeginRecovery(namespace: Option<string>) returns (run: Result<string, Error>)
      requires Valid() && Now().pc.Down?
      modifies this
      ensures Valid() && old(trace) <= trace && ledger == old(ledger) && Now().grants == old(Now()).grants
      ensures run.Failure? ==> Now().pc.Down?
      ensures run.Success? ==>
                Now().pc == RecoverCommitting(namespace, run.value) && RecoverAllowed(ledger, namespace)
                && MarkerKey(namespace) !in redis.markers
    {
      hide SafeRun, ActStep, Enabled, Next, LoadPending, RecoverAllowed, TxRecover;
      StartActs(lib, Now(), namespace);
      Tick(StartRecover(namespace));
      var fault := AnyFault();
      RecoverActs(lib, Now(), fault);
      Tick(Act(fault));
      if !fault.NoFault? || LoadPending(ledger).Failure? || !RecoverAllowed(ledger, namespace) {
        return Failure(Invalid);
      }
      Weather();
      fault := AnyFault();
      RecoverActs(lib, Now(), fault);
      Tick(Act(fault));
      if !fault.NoFault? || MarkerKey(namespace) in redis.markers || !redis.master { return Failure(Invalid); }
      run := Success(redis.runId);
    }

    /** Publish the new epoch's marker, read it back, and only then release the ledger. */
    method PublishRecovery(ghost before: Ledger) returns (r: Result<(), Error>)
      requires Valid() && Now().pc == RecoverPublishing(before)
      modifies this
      ensures Valid() && old(trace) <= trace && Now().pc.Down? && Now().grants == old(Now()).grants
      ensures ledger == old(ledger) || ledger == Unhalted(old(ledger))
      ensures r.Success? ==> ledger == Unhalted(old(ledger)) && Attached(redis, ledger.control)
    {
      hide SafeRun, ActStep, Enabled, Next, LoadPending, RecoverAllowed, TxRecover;
      Weather();
      var fault := AnyFault();
      RecoverActs(lib, Now(), fault);
      var setNx := SetNx(KeyOf(ledger.control), TokenOf(ledger.control));
      var free := Effective(redis, setNx);
      if !fault.Lost? { redis := Apply(redis, setNx); }
      Tick(Act(fault));
      if !fault.NoFault? || !free { return Failure(RecoveryRequired); }
      r := ReleaseRecovery(before);
    }

    method ReleaseRecovery(ghost before: Ledger) returns (r: Result<(), Error>)
      requires Valid() && Now().pc == RecoverVerifying(before)
      modifies this
      ensures Valid() && old(trace) <= trace && Now().pc.Down? && Now().grants == old(Now()).grants
      ensures ledger == old(ledger) || ledger == Unhalted(old(ledger))
      ensures r.Success? ==> ledger == Unhalted(old(ledger)) && Attached(redis, ledger.control)
    {
      hide SafeRun, ActStep, Enabled, Next, LoadPending, RecoverAllowed, TxRecover;
      Weather();
      var fault := AnyFault();
      RecoverActs(lib, Now(), fault);
      Tick(Act(fault));
      if !fault.NoFault? || !Attached(redis, ledger.control) { return Failure(RecoveryRequired); }
      fault := AnyFault();
      RecoverActs(lib, Now(), fault);
      if !fault.Lost? { ledger := Unhalted(ledger); }
      Tick(Act(fault));
      r := if fault.NoFault? then Success(()) else Failure(Storage);
    }
  }

  /** A ledger in the new epoch, halted until its marker is known to be published. */
  predicate RecoveredTo(before: Ledger, namespace: Option<string>, after: Ledger) {
    var recovered := TxRecover(before, namespace, after.control.runId);
    after == recovered || after == Unhalted(recovered)
  }

  lemma RecoverRun(before: Ledger, namespace: Option<string>, run: string)
    ensures var l := TxRecover(before, namespace, run);
            l.control.runId == run && Unhalted(l).control.runId == run && RecoveredTo(before, namespace, l)
            && RecoveredTo(before, namespace, Unhalted(l))
  {
    hide Quarantine;
  }
}
