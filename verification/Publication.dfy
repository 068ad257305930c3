/**
 * What Redis holds. While markers change only through the engine's own commands, the marker is always the
 * current token or the recorded predecessor; and whatever is lost or rolled back, an un-halted ledger is one
 * whose marker was published.
 */
module Publication {
  import opened Wrappers
  import opened Ledger
  import opened LedgerInvariant
  import opened Protocol
  import opened ProtocolInvariant
  import opened Runs

  /** A ledger whose first marker may not have been published yet. */
  predicate Fresh(c: Control) { c.reason == Some(Initializing) || c.reason == Some(RecoveryIncomplete) }

  predicate AtTarget(w: World) { Marker(w.redis, KeyOf(w.ledger.control)) == Some(TokenOf(w.ledger.control)) }

  predicate AtPredecessor(w: World) {
    w.ledger.pending.Some? && Marker(w.redis, KeyOf(w.ledger.control)) == Some(w.ledger.pending.value.previous)
  }

  predicate NeedsTarget(pc: Pc) {
    pc.Acknowledging? || pc.ReattachCommitting? || pc.InitReleasing? || pc.RecoverReleasing?
  }

  /**
   * The marker is the current token or the pending predecessor, and exactly the token where it is about to be relied
   * on.
   */
  predicate Intact(w: World) {
    (!Fresh(w.ledger.control) ==> AtTarget(w) || AtPredecessor(w)) && (NeedsTarget(w.pc) ==> AtTarget(w))
  }

  /** No command in flight can take a marker anywhere but to the current token. */
  lemma MessageKeeps(r: Redis, m: Message, key: string, now: Token, pending: Option<PendingUpdate>)
    requires MessageOk(m, now, pending)
    ensures Marker(r, key) == Some(now) ==> Marker(Apply(r, m), key) == Some(now)
    ensures pending.Some? && Marker(r, key) == Some(pending.value.previous) ==>
              Marker(Apply(r, m), key) in {Some(now), Some(pending.value.previous)}
  {}

  lemma ExecuteIntact(w: World, m: Message)
    requires Intact(w) && MessageOk(m, TokenOf(w.ledger.control), w.ledger.pending)
    ensures Intact(Execute(w, m)) && Execute(w, m).pc == w.pc && Execute(w, m).ledger == w.ledger
    ensures AtTarget(w) ==> AtTarget(Execute(w, m))
  {
    hide MessageOk, Apply, Effective;
    MessageKeeps(w.redis, m, KeyOf(w.ledger.control), TokenOf(w.ledger.control), w.ledger.pending);
  }

  /** The events that do not touch markers behind the engine's back. */
  predicate Gentle(e: Event) { !e.Disaster? && !e.Forge? }

  predicate ReadsOnly(pc: Pc) {
    || pc.Gate? || pc.Observing? || pc.Confirming? || pc.Settling? || pc.MirrorReading?
    || pc.ReattachReading? || pc.ReattachObserving? || pc.ReattachVerifying?
    || pc.RecoverReading? || pc.RecoverObserving? || pc.RecoverVerifying?
  }

  /** What a step that only reads leads to: it may come to rely on the target only after seeing it. */
  ghost predicate ReadStep(w: World, b: World) {
    b.redis == w.redis && b.ledger == w.ledger && b.written == w.written && (NeedsTarget(b.pc) ==> AtTarget(w))
  }

  lemma ServingReads(lib: Libraries, w: World, fault: Fault)
    requires Safe(lib, w)
             && (w.pc.Gate? || w.pc.Observing? || w.pc.Confirming? || w.pc.Settling? || w.pc.MirrorReading?)
    ensures ReadStep(w, ActStep(lib, w, fault))
  {
    assert w.pc.Confirming? ==> w.pc.update.target == TokenOf(w.ledger.control) && w.pc.current == w.ledger.control;
    hide Safe, LoadPending, Transact, Precheck;
  }

  lemma OfflineReads(lib: Libraries, w: World, fault: Fault)
    requires Safe(lib, w) && ReadsOnly(w.pc) && (IsReattach(w.pc) || IsRecover(w.pc))
    ensures ReadStep(w, ActStep(lib, w, fault))
  {
    hide Inv, NetOk, GrantsOk, ThenOk, LoadPending, RecoverAllowed, ReattachAllowed, Recovering, Transact;
  }

  lemma Reads(lib: Libraries, w: World, fault: Fault)
    requires Safe(lib, w) && ReadsOnly(w.pc)
    ensures ReadStep(w, ActStep(lib, w, fault))
  {
    hide Safe, ActStep, ReadStep;
    if IsReattach(w.pc) || IsRecover(w.pc) { OfflineReads(lib, w, fault); } else { ServingReads(lib, w, fault); }
  }

  lemma PublishIntact(lib: Libraries, w: World, fault: Fault)
    requires Safe(lib, w) && Intact(w) && w.pc.Publishing?
    ensures Intact(ActPublish(w, w.pc.k, w.pc.current, w.pc.update, fault))
  {
    var m := Cas(w.pc.update.redisKey, w.pc.update.previous, w.pc.update.target);
    SendsCas(w.net, w.pc.update, w.ledger.control);
    assert MessageOk(m, TokenOf(w.ledger.control), w.ledger.pending);
    hide Safe, MessageOk, Effective, Apply;
    ExecuteIntact(Send(w, m), m);
  }

  lemma SetNxIntact(w: World, next: Pc, fault: Fault)
    requires Intact(w) && !NeedsTarget(w.pc)
    ensures Intact(ActSetNx(w, next, fault))
  {
    var m := SetNx(KeyOf(w.ledger.control), TokenOf(w.ledger.control));
    var sent := Send(w, m);
    ExecuteIntact(sent, m);
  }

  /** A committed transition starts from a marker that is exactly the token it replaces. */
  lemma TransactPoint(lib: Libraries, w: World, req: Request, fault: Fault)
    ensures var pc := ActTransact(lib, w, req, fault).pc;
            pc.Down? || pc.Idle? || pc.Gate? || pc.MirrorReading? || pc.Halting?
  {
    hide Transact, GrantOf;
  }

  lemma TransactQuiet(lib: Libraries, w: World, req: Request, fault: Fault)
    ensures var b := ActTransact(lib, w, req, fault);
            && b.redis == w.redis && b.written == w.written && !NeedsTarget(b.pc)
            && (b.ledger == w.ledger || b.ledger == Transact(lib, w.ledger, req).ledger)
  {
    hide Transact, GrantOf, Starting;
    TransactPoint(lib, w, req, fault);
  }

  lemma TransactIntact(lib: Libraries, w: World, fault: Fault)
    requires Safe(lib, w) && Intact(w) && w.pc.Transacting?
    ensures Intact(ActTransact(lib, w, w.pc.req, fault))
  {
    assert Live(w) && w.ledger.pending.None? && !Fresh(w.ledger.control);
    hide Safe, Transact, PendingValid, ActTransact;
    TransactMoved(lib, w.ledger, w.pc.req);
    TransactQuiet(lib, w, w.pc.req, fault);
    assert KeyOf(ActTransact(lib, w, w.pc.req, fault).ledger.control) == KeyOf(w.ledger.control);
  }

  lemma HaltIntact(lib: Libraries, w: World, fault: Fault)
    requires Safe(lib, w) && Intact(w) && (w.pc.Acknowledging? || w.pc.Halting? || w.pc.ReattachFencing?)
    ensures Intact(ActStep(lib, w, fault))
  {
    hide Inv, NetOk, GrantsOk, ThenOk, Transact, PendingValid;
  }

  lemma AdoptIntact(lib: Libraries, w: World, fault: Fault)
    requires Intact(w) && w.pc.ReattachCommitting?
    ensures Intact(ActStep(lib, w, fault))
  {
    hide LoadPending, Transact;
  }

  lemma ReleaseIntact(lib: Libraries, w: World, fault: Fault)
    requires Intact(w) && (w.pc.InitReleasing? || w.pc.RecoverReleasing?)
    ensures Intact(ActStep(lib, w, fault))
  {
    hide ActReattach, Transact;
  }

  lemma WriteIntact(lib: Libraries, w: World, fault: Fault)
    requires Safe(lib, w) && Intact(w)
    requires w.pc.Acknowledging? || w.pc.Halting? || w.pc.InitReleasing? || w.pc.RecoverReleasing?
             || w.pc.ReattachFencing? || w.pc.ReattachCommitting?
    ensures Intact(ActStep(lib, w, fault))
  {
    hide Safe, Intact, ActStep;
    if w.pc.Acknowledging? || w.pc.Halting? || w.pc.ReattachFencing? { HaltIntact(lib, w, fault); }
    else if w.pc.ReattachCommitting? { AdoptIntact(lib, w, fault); } else { ReleaseIntact(lib, w, fault); }
  }

  lemma ReadsIntact(lib: Libraries, w: World, fault: Fault)
    requires Safe(lib, w) && Intact(w) && ReadsOnly(w.pc)
    ensures Intact(ActStep(lib, w, fault))
  {
    hide Safe, ActStep, ReadsOnly;
    Reads(lib, w, fault);
  }

  lemma SetNxStepIntact(lib: Libraries, w: World, fault: Fault)
    requires Intact(w) && (w.pc.InitPublishing? || w.pc.RecoverPublishing?)
    ensures Intact(ActStep(lib, w, fault))
  {
    hide Intact, ActSetNx;
    if w.pc.InitPublishing? { SetNxIntact(w, InitReleasing, fault); }
    else { SetNxIntact(w, RecoverVerifying(w.pc.before), fault); }
  }

  /** A new epoch starts halted, with its marker still to be written. */
  lemma RecoverCommitIntact(lib: Libraries, w: World, fault: Fault)
    requires Intact(w) && w.pc.RecoverCommitting?
    ensures Intact(ActStep(lib, w, fault))
  {
    hide Quarantine;
  }

  lemma ActIntact(lib: Libraries, w: World, fault: Fault)
    requires Safe(lib, w) && Intact(w)
    ensures Intact(ActStep(lib, w, fault))
  {
    if w.pc.Publishing? {
      hide Safe, Intact, ActPublish;
      PublishIntact(lib, w, fault);
    } else if w.pc.Transacting? {
      hide Safe, Intact, ActTransact;
      TransactIntact(lib, w, fault);
    } else if w.pc.Down? || w.pc.Idle? {
      hide Safe, Intact;
    } else {
      hide Safe, Intact, ActStep;
      if w.pc.InitPublishing? || w.pc.RecoverPublishing? { SetNxStepIntact(lib, w, fault); }
      else if w.pc.RecoverCommitting? { RecoverCommitIntact(lib, w, fault); }
      else if ReadsOnly(w.pc) {
        ReadsIntact(lib, w, fault);
      } else { WriteIntact(lib, w, fault); }
    }
  }

  lemma NextIntact(lib: Libraries, w: World, e: Event)
    requires Safe(lib, w) && Intact(w) && Enabled(w, e) && Gentle(e)
    ensures Intact(Next(lib, w, e))
  {
    match e
    case Act(fault) => hide Safe, ActStep; ActIntact(lib, w, fault);
    case Deliver(m) =>
      assert MessageOk(m, TokenOf(w.ledger.control), w.ledger.pending);
      ExecuteIntact(w, m);
    case _ => hide Safe, ActStep, Precheck;
  }

  /**
   * While Redis changes only through the engine's commands, its marker is the current token or exactly the
   * predecessor in the one pending record.
   */
  lemma {:induction false} PublicationInvariant(lib: Libraries, states: seq<World>, events: seq<Event>, i: nat)
    requires SafeRun(lib, states, events) && Intact(states[0]) && i < |states|
    requires forall n :: 0 <= n < |events| ==> Gentle(events[n])
    ensures Intact(states[i])
  {
    if i > 0 {
      hide Safe, IsRun, Intact, Next, Enabled;
      PublicationInvariant(lib, states, events, i - 1);
      RunStep(lib, states, events, i - 1);
      NextIntact(lib, states[i - 1], events[i - 1]);
    }
  }

  // ----- nothing is un-halted before its marker was written -----

  ghost predicate WrittenAt(w: World, t: Token) { (KeyOf(w.ledger.control), t) in w.written }

  /** Every marker in Redis was written by the engine, or belongs to another deployment. */
  ghost predicate Provenance(w: World) {
    forall key :: key in w.redis.markers ==>
      (key, w.redis.markers[key]) in w.written || w.redis.markers[key].deployment != w.ledger.control.deployment
  }

  ghost predicate Published(w: World) {
    && Provenance(w)
    && (!Fresh(w.ledger.control) ==>
          WrittenAt(w, TokenOf(w.ledger.control))
          || (w.ledger.pending.Some? && WrittenAt(w, w.ledger.pending.value.previous)))
    && (NeedsTarget(w.pc) ==> WrittenAt(w, TokenOf(w.ledger.control)))
  }

  lemma SeenWasWritten(w: World)
    requires Provenance(w) && AtTarget(w)
    ensures WrittenAt(w, TokenOf(w.ledger.control))
  {}

  lemma ExecutePublished(w: World, m: Message)
    requires Published(w)
    ensures Published(Execute(w, m)) && Execute(w, m).ledger == w.ledger && Execute(w, m).pc == w.pc
    ensures Effective(w.redis, m) ==> (m.key, m.target) in Execute(w, m).written
  {}

  lemma SetNxPublished(w: World, next: Pc, fault: Fault)
    requires Published(w) && !NeedsTarget(w.pc)
    ensures Published(ActSetNx(w, next, fault))
  {
    var m := SetNx(KeyOf(w.ledger.control), TokenOf(w.ledger.control));
    ExecutePublished(Send(w, m), m);
    hide Effective, Apply, Provenance;
  }

  lemma TransactPublished(lib: Libraries, w: World, fault: Fault)
    requires Safe(lib, w) && Published(w) && w.pc.Transacting?
    ensures Published(ActTransact(lib, w, w.pc.req, fault))
  {
    assert Live(w) && w.ledger.pending.None? && !Fresh(w.ledger.control);
    hide Safe, Transact, PendingValid, ActTransact;
    TransactMoved(lib, w.ledger, w.pc.req);
    TransactQuiet(lib, w, w.pc.req, fault);
    assert KeyOf(ActTransact(lib, w, w.pc.req, fault).ledger.control) == KeyOf(w.ledger.control);
  }

  lemma HaltPublished(lib: Libraries, w: World, fault: Fault)
    requires Safe(lib, w) && Published(w) && (w.pc.Acknowledging? || w.pc.Halting? || w.pc.ReattachFencing?)
    ensures Published(ActStep(lib, w, fault))
  {
    hide Inv, NetOk, GrantsOk, ThenOk, Transact, PendingValid;
  }

  lemma ReleasePublished(lib: Libraries, w: World, fault: Fault)
    requires Safe(lib, w) && Published(w) && (w.pc.InitReleasing? || w.pc.RecoverReleasing? || w.pc.ReattachCommitting?)
    ensures Published(ActStep(lib, w, fault))
  {
    hide Inv, NetOk, GrantsOk, ThenOk, RecoverAllowed, ReattachAllowed, Recovering, Transact, LoadPending;
  }

  lemma WritePublished(lib: Libraries, w: World, fault: Fault)
    requires Safe(lib, w) && Published(w)
    requires w.pc.Acknowledging? || w.pc.Halting? || w.pc.InitReleasing? || w.pc.RecoverReleasing?
             || w.pc.ReattachFencing? || w.pc.ReattachCommitting?
    ensures Published(ActStep(lib, w, fault))
  {
    hide Safe, Published, ActStep;
    if w.pc.Acknowledging? || w.pc.Halting? || w.pc.ReattachFencing? { HaltPublished(lib, w, fault); }
    else { ReleasePublished(lib, w, fault); }
  }

  lemma PublishPublished(lib: Libraries, w: World, fault: Fault)
    requires Published(w) && w.pc.Publishing?
    ensures Published(ActPublish(w, w.pc.k, w.pc.current, w.pc.update, fault))
  {
    var m := Cas(w.pc.update.redisKey, w.pc.update.previous, w.pc.update.target);
    ExecutePublished(Send(w, m), m);
    hide Effective, Apply, Provenance;
  }

  lemma ReadsPublished(lib: Libraries, w: World, fault: Fault)
    requires Safe(lib, w) && Published(w) && ReadsOnly(w.pc)
    ensures Published(ActStep(lib, w, fault))
  {
    hide Safe, ActStep, ReadsOnly;
    Reads(lib, w, fault);
    if AtTarget(w) { SeenWasWritten(w); }
  }

  lemma SetNxStepPublished(lib: Libraries, w: World, fault: Fault)
    requires Published(w) && (w.pc.InitPublishing? || w.pc.RecoverPublishing?)
    ensures Published(ActStep(lib, w, fault))
  {
    hide Published, ActSetNx;
    if w.pc.InitPublishing? { SetNxPublished(w, InitReleasing, fault); }
    else { SetNxPublished(w, RecoverVerifying(w.pc.before), fault); }
  }

  /** A new epoch starts halted, with its marker still to be written. */
  lemma RecoverCommitPublished(lib: Libraries, w: World, fault: Fault)
    requires Published(w) && w.pc.RecoverCommitting?
    ensures Published(ActStep(lib, w, fault))
  {
    hide Quarantine;
  }

  lemma ActPublished(lib: Libraries, w: World, fault: Fault)
    requires Safe(lib, w) && Published(w)
    ensures Published(ActStep(lib, w, fault))
  {
    if w.pc.Publishing? {
      hide Safe, Published, ActPublish;
      PublishPublished(lib, w, fault);
    } else if w.pc.Transacting? {
      hide Safe, Published, ActTransact;
      TransactPublished(lib, w, fault);
    } else if w.pc.Down? || w.pc.Idle? {
      hide Safe, Published;
    } else {
      hide Safe, Published, ActStep;
      if w.pc.InitPublishing? || w.pc.RecoverPublishing? { SetNxStepPublished(lib, w, fault); }
      else if w.pc.RecoverCommitting? { RecoverCommitPublished(lib, w, fault); }
      else if ReadsOnly(w.pc) {
        ReadsPublished(lib, w, fault);
      } else { WritePublished(lib, w, fault); }
    }
  }

  lemma NextPublished(lib: Libraries, w: World, e: Event)
    requires Safe(lib, w) && Published(w) && Enabled(w, e) && !e.Forge?
    ensures Published(Next(lib, w, e))
  {
    match e
    case Act(fault) => hide Safe, ActStep; ActPublished(lib, w, fault);
    case Deliver(m) => ExecutePublished(w, m);
    case _ => hide Safe, ActStep, Precheck;
  }

  /**
   * Over every run in which markers are lost or rolled back but never forged, an un-halted ledger is one whose marker
   * was written in its own epoch.
   */
  lemma {:induction false} UnhaltedWasPublished(lib: Libraries, states: seq<World>, events: seq<Event>, i: nat)
    requires SafeRun(lib, states, events) && Published(states[0]) && i < |states|
    requires forall n :: 0 <= n < |events| ==> !events[n].Forge?
    ensures Published(states[i])
    ensures !states[i].ledger.control.halted ==>
              exists t :: WrittenAt(states[i], t) && t.epoch == states[i].ledger.control.epoch
                          && t.deployment == states[i].ledger.control.deployment
  {
    if i > 0 {
      hide Safe, IsRun, Published, Next, Enabled;
      UnhaltedWasPublished(lib, states, events, i - 1);
      RunStep(lib, states, events, i - 1);
      NextPublished(lib, states[i - 1], events[i - 1]);
    }
    if !states[i].ledger.control.halted { PublishedEpoch(lib, states, events, i); }
  }

  lemma PublishedEpoch(lib: Libraries, states: seq<World>, events: seq<Event>, i: nat)
    requires SafeRun(lib, states, events) && i < |states| && Published(states[i]) && !states[i].ledger.control.halted
    ensures exists t :: WrittenAt(states[i], t) && t.epoch == states[i].ledger.control.epoch
                        && t.deployment == states[i].ledger.control.deployment
  {
    hide SafeRun, Provenance, TablesOk;
    RunInv(lib, states, events, i);
    var w := states[i];
    if WrittenAt(w, TokenOf(w.ledger.control)) {
    } else {
      assert WrittenAt(w, w.ledger.pending.value.previous);
    }
  }

  /** A fresh deployment starts with an empty record and nothing to be intact about. */
  lemma InitializedPublished(deployment: string, namespace: Option<string>, redis: Redis)
    ensures Intact(Initialized(deployment, namespace, redis))
    ensures (forall key :: key in redis.markers ==> redis.markers[key].deployment != deployment) ==>
              Published(Initialized(deployment, namespace, redis))
  {}

  /**
   * From the initialization of a deployment on, while markers change only through the engine's own commands, the
   * marker of a ledger that was ever released is the current token or the recorded predecessor.
   */
  lemma DeploymentStaysIntact(lib: Libraries, states: seq<World>, events: seq<Event>, deployment: string,
                              namespace: Option<string>, redis: Redis, i: nat)
    requires IsRun(lib, states, events) && states[0] == Initialized(deployment, namespace, redis) && i < |states|
    requires forall n :: 0 <= n < |events| ==> Gentle(events[n])
    ensures !Fresh(states[i].ledger.control) ==> AtTarget(states[i]) || AtPredecessor(states[i])
    ensures NeedsTarget(states[i].pc) ==> AtTarget(states[i])
  {
    hide IsRun, Safe;
    InitializedSafe(lib, deployment, namespace, redis);
    InitializedPublished(deployment, namespace, redis);
    hide Initialized;
    PublicationInvariant(lib, states, events, i);
  }

  /**
   * From the initialization of a deployment under an identifier Redis has not seen, through any loss or rollback of
   * markers, an un-halted ledger is one whose marker was written in its own epoch.
   */
  lemma DeploymentWasPublished(lib: Libraries, states: seq<World>, events: seq<Event>, deployment: string,
                               namespace: Option<string>, redis: Redis, i: nat)
    requires IsRun(lib, states, events) && states[0] == Initialized(deployment, namespace, redis) && i < |states|
    requires forall key :: key in redis.markers ==> redis.markers[key].deployment != deployment
    requires forall n :: 0 <= n < |events| ==> !events[n].Forge?
    ensures !states[i].ledger.control.halted ==>
              exists t :: WrittenAt(states[i], t) && t.epoch == states[i].ledger.control.epoch
                          && t.deployment == states[i].ledger.control.deployment
  {
    hide IsRun, Safe;
    InitializedSafe(lib, deployment, namespace, redis);
    InitializedPublished(deployment, namespace, redis);
    hide Initialized, Published;
    UnhaltedWasPublished(lib, states, events, i);
  }
}
