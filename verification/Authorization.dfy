/** When permission to send leaves the journal, and when a process never gives any again. */
module Authorization {
  import opened Wrappers
  import opened Ledger
  import opened LedgerInvariant
  import opened Protocol
  import opened ProtocolInvariant
  import opened Runs

  // ----- what was seen of Redis -----

  /**
   * An operation comes to have seen a control row only by observing Redis hold exactly its token, with nothing
   * pending.
   */
  ghost predicate SeenStep(w: World, b: World) {
    || b.seen == w.seen
    || b.seen.None?
    || (b.seen == Some(w.ledger.control) && Attached(w.redis, w.ledger.control) && w.ledger.pending.None?)
  }

  lemma ActSeen(lib: Libraries, w: World, fault: Fault)
    requires Safe(lib, w)
    ensures SeenStep(w, ActStep(lib, w, fault))
  {
    if w.pc.Observing? || w.pc.Settling? {
      hide Inv, NetOk, GrantsOk, ThenOk, Transact;
    } else {
      hide Safe, SeenStep, ActStep;
      OtherActsSeeNothing(lib, w, fault);
    }
  }

  lemma OtherActsSeeNothing(lib: Libraries, w: World, fault: Fault)
    requires !w.pc.Observing? && !w.pc.Settling?
    ensures SeenStep(w, ActStep(lib, w, fault))
  {
    hide Transact, LoadPending, Effective, TxRecover, TxReattach, RecoverAllowed, ReattachAllowed, Confirm, Attached,
         ActObserve, ActSettle;
  }

  lemma NextSeen(lib: Libraries, w: World, e: Event)
    requires Safe(lib, w) && Enabled(w, e)
    ensures SeenStep(w, Next(lib, w, e))
    ensures e.Call? || e.Open? || e.Crash? ==> Next(lib, w, e).seen.None?
  {
    hide Safe, ActStep, Effective, Precheck;
    if e.Act? { ActSeen(lib, w, e.fault); }
  }

  /** From state n to state i one operation has been running: no call, start or crash in between. */
  ghost predicate SameOperation(events: seq<Event>, n: nat, i: nat) {
    n <= i <= |events| && forall m :: n <= m < i ==> !events[m].Call? && !events[m].Open? && !events[m].Crash?
  }

  ghost predicate SeenAttached(states: seq<World>, events: seq<Event>, n: nat, i: nat, c: Control) {
    n < |states| && SameOperation(events, n, i) && states[n].ledger.control == c && Attached(states[n].redis, c)
  }

  /** Whatever a running operation has seen, Redis really held at some moment of that operation. */
  lemma {:induction false} SeenWasAttached(lib: Libraries, states: seq<World>, events: seq<Event>, i: nat)
    returns (n: nat)
    requires SafeRun(lib, states, events) && states[0].seen.None? && i < |states| && states[i].seen.Some?
    ensures SeenAttached(states, events, n, i, states[i].seen.value)
  {
    hide Safe, StepAt, Next, Enabled;
    RunStep(lib, states, events, i - 1);
    NextSeen(lib, states[i - 1], events[i - 1]);
    if states[i].seen == states[i - 1].seen {
      n := SeenWasAttached(lib, states, events, i - 1);
    } else {
      n := i - 1;
    }
  }

  /**
   * Whenever permission is granted: the exact wire is a durable attempt of an Admitted id that owns the key,
   * its chain is not halted, nothing is pending, the ledger is not halted, and within the same operation
   * Redis was seen holding the current token as the same primary process. The attempt is in every later state.
   */
  lemma GrantIsAuthorized(lib: Libraries, states: seq<World>, events: seq<Event>, i: nat, j: nat) returns (n: nat)
    requires SafeRun(lib, states, events) && states[0].seen.None?
    requires i < |events| && i < j < |states| && states[i + 1].grants != states[i].grants
    ensures |states[i + 1].grants| == |states[i].grants| + 1
    ensures var w := states[i + 1];
            var g := w.grants[|states[i].grants|];
            && Permitted(w.ledger, g) && w.ledger.pending.None? && !w.ledger.control.halted && !w.failed
            && SeenAttached(states, events, n, i + 1, w.ledger.control)
            && Durable(states[j].ledger, g)
  {
    hide Safe, IsRun, Permitted, Durable, Evolves;
    RunSafe(lib, states, events, i);
    n := SeenWasAttached(lib, states, events, i + 1);
    assert Durable(states[i + 1].ledger, states[i + 1].grants[|states[i].grants|]) by {
      PermittedDurable(states[i + 1].ledger, states[i + 1].grants[|states[i].grants|]);
    }
    RunTables(lib, states, events, i + 1, j);
    DurableGrows(states[i + 1].ledger, states[j].ledger, states[i + 1].grants[|states[i].grants|]);
  }

  lemma PermittedDurable(l: Ledger, g: Grant)
    requires Permitted(l, g)
    ensures Durable(l, g)
  {}

  // ----- a latched process -----

  /** The process safety gate is latched: whatever it has answered since is a failure. */
  predicate Latched(w: World) {
    w.failed && (w.pc.Halting? || (w.pc.Gate? && w.pc.k.Serve?) || (w.pc.Idle? && w.pc.last.Failure?) || w.pc.Down?)
  }

  lemma LatchedStep(lib: Libraries, w: World, e: Event)
    requires Latched(w) && !w.pc.Down? && Enabled(w, e)
    ensures Latched(Next(lib, w, e)) && Next(lib, w, e).grants == w.grants
    ensures SameTables(w.ledger, Next(lib, w, e).ledger)
  {
    hide Effective, LoadPending, Precheck;
  }

  predicate SameTables(a: Ledger, b: Ledger) {
    a.admissions == b.admissions && a.attempts == b.attempts && a.evidence == b.evidence
    && a.checkpoints == b.checkpoints &&
    a.halts == b.halts && a.solana == b.solana && TokenOf(a.control) == TokenOf(b.control) && a.pending == b.pending
  }

  /** Until that process is gone, nothing it does succeeds: no grant, no table row, no checkpoint. */
  lemma {:induction false} LatchedForever(lib: Libraries, states: seq<World>, events: seq<Event>, i: nat, j: nat)
    requires IsRun(lib, states, events) && i <= j < |states| && Latched(states[i])
    requires forall n :: i <= n < j ==> !states[n].pc.Down?
    ensures Latched(states[j]) && states[j].grants == states[i].grants && SameTables(states[i].ledger, states[j].ledger)
    decreases j
  {
    if i < j {
      hide Next, Enabled, Latched;
      LatchedForever(lib, states, events, i, j - 1);
      assert StepAt(lib, states, events, j - 1);
      LatchedStep(lib, states[j - 1], events[j - 1]);
    }
  }

  /** The marker is neither the current token nor the recorded predecessor. */
  predicate Foreign(w: World) {
    var marker := Marker(w.redis, KeyOf(w.ledger.control));
    marker != Some(TokenOf(w.ledger.control))
    && !(w.ledger.pending.Some? && marker == Some(w.ledger.pending.value.previous))
  }

  /** The next action reads the marker, by itself or in the publish script. */
  predicate LooksAtMarker(pc: Pc) { pc.Observing? || pc.Publishing? || pc.Confirming? || pc.Settling? }

  lemma ForeignLatches(lib: Libraries, w: World)
    requires Safe(lib, w) && LooksAtMarker(w.pc) && Foreign(w)
    ensures var b := Next(lib, w, Act(NoFault));
            Latched(b) && b.pc == Halting(w.pc.k, CheckpointMismatch) && b.ledger == w.ledger && b.grants == w.grants
  {
    assert w.pc.Confirming? || w.pc.Publishing? ==> w.pc.update.target == TokenOf(w.ledger.control);
    hide Inv, NetOk, GrantsOk, ThenOk;
  }

  /**
   * A process that observes a foreign marker never succeeds at anything again, and halts the ledger durably unless
   * that last write is lost.
   */
  lemma ForeignMarkerFences(lib: Libraries, states: seq<World>, events: seq<Event>, i: nat, j: nat)
    requires SafeRun(lib, states, events) && i < j < |states| && events[i] == Act(NoFault)
    requires LooksAtMarker(states[i].pc) && Foreign(states[i])
    requires forall n :: i <= n < j ==> !states[n].pc.Down?
    ensures states[j].failed && states[j].grants == states[i].grants && SameTables(states[i].ledger, states[j].ledger)
    ensures states[j].pc.Idle? ==> states[j].pc.last.Failure?
    ensures i + 1 < j && events[i + 1] == Act(NoFault) ==>
              Fenced(states[i + 2].ledger.control) && states[i + 2].ledger.control.reason == Some(CheckpointMismatch)
  {
    hide Safe, StepAt, Next, Enabled;
    RunStep(lib, states, events, i);
    ForeignLatches(lib, states[i]);
    LatchedForever(lib, states, events, i + 1, j);
    if i + 1 < j && events[i + 1] == Act(NoFault) {
      RunStep(lib, states, events, i + 1);
      LiveObserver(lib, states[i]);
      HaltCommits(lib, states[i + 1]);
    }
  }

  lemma LiveObserver(lib: Libraries, w: World)
    requires Safe(lib, w) && LooksAtMarker(w.pc)
    ensures w.ledger.control.reason.None?
  {
    hide TablesOk, NetOk, GrantsOk, ThenOk;
  }

  lemma HaltCommits(lib: Libraries, w: World)
    requires w.pc.Halting? && w.ledger.control.reason.None?
    ensures var b := Next(lib, w, Act(NoFault)); b.ledger.control.halted && b.ledger.control.reason == Some(w.pc.reason)
  {}

  // ----- un-halting needs a marker that was really seen -----

  /** Redis was seen, as primary, holding exactly this control row's token. */
  ghost predicate SawExact(states: seq<World>, n: nat, c: Control, run: string) {
    n < |states| && states[n].redis.master && states[n].redis.runId == run
    && Marker(states[n].redis, KeyOf(c)) == Some(TokenOf(c))
  }

  /** `initialize` found no marker and wrote this control row's token, in one command. */
  ghost predicate WroteFirst(states: seq<World>, n: nat, c: Control) {
    n + 1 < |states| && KeyOf(c) !in states[n].redis.markers
    && Marker(states[n + 1].redis, KeyOf(c)) == Some(TokenOf(c))
  }

  /**
   * The offline commands come to the point of changing or releasing the ledger only from an exact observation, or
   * their own first write.
   */
  ghost predicate PointReached(w: World, b: World) {
    && (b.pc.ReattachCommitting? ==>
          w.pc == b.pc
          || (w.pc.ReattachObserving? && w.redis.master && w.redis.runId == b.pc.run && w.pc.current == b.pc.current
                           && Marker(w.redis, KeyOf(b.pc.current)) == Some(TokenOf(b.pc.current))))
    && (b.pc.RecoverReleasing? ==>
          (w.pc == b.pc && w.ledger == b.ledger)
          || (w.pc.RecoverVerifying? && Attached(w.redis, w.ledger.control) && b.ledger == w.ledger))
    && (b.pc.InitReleasing? ==>
          b.ledger == w.ledger && (w.pc == b.pc || FirstWrite(w, b)))
  }

  predicate FirstWrite(w: World, b: World) {
    KeyOf(w.ledger.control) !in w.redis.markers
    && Marker(b.redis, KeyOf(w.ledger.control)) == Some(TokenOf(w.ledger.control))
  }

  lemma OfflineActPoint(w: World, fault: Fault)
    ensures IsReattach(w.pc) ==> PointReached(w, ActReattach(w, fault))
    ensures IsRecover(w.pc) ==> PointReached(w, ActRecover(w, fault))
  {
    hide LoadPending, Effective, ReattachAllowed, RecoverAllowed, TxRecover, TxReattach, FirstWrite;
  }

  lemma InitActPoint(lib: Libraries, w: World, fault: Fault)
    requires w.pc.InitPublishing? || w.pc.InitReleasing?
    ensures PointReached(w, ActStep(lib, w, fault))
  {
    hide Transact, Attached;
  }

  /** No offline command is at work. */
  predicate Serving(pc: Pc) {
    pc.Down? || pc.Idle? || pc.Gate? || pc.Transacting? || LooksAtMarker(pc) || pc.Acknowledging? || pc.MirrorReading?
    || pc.Halting?
  }

  lemma TransactStaysServing(lib: Libraries, w: World, req: Request, fault: Fault)
    ensures Serving(ActTransact(lib, w, req, fault).pc)
  {
    hide Transact, GrantOf;
  }

  lemma PublishStaysServing(lib: Libraries, w: World, fault: Fault)
    requires w.pc.Publishing? || w.pc.Confirming? || w.pc.Acknowledging?
    ensures Serving(ActStep(lib, w, fault).pc)
  {
    hide Transact, Confirm, Effective, Acknowledge, GrantOf;
  }

  lemma StaysServing(lib: Libraries, w: World, fault: Fault)
    requires Serving(w.pc)
    ensures Serving(ActStep(lib, w, fault).pc)
  {
    if w.pc.Transacting? {
      hide ActTransact, Serving;
      TransactStaysServing(lib, w, w.pc.req, fault);
    } else if w.pc.Publishing? || w.pc.Confirming? || w.pc.Acknowledging? {
      hide ActStep, Serving;
      PublishStaysServing(lib, w, fault);
    } else {
      hide Transact, LoadPending, Observe, GrantOf;
    }
  }

  lemma ServingActPoint(lib: Libraries, w: World, fault: Fault)
    requires !IsReattach(w.pc) && !IsRecover(w.pc)
    ensures PointReached(w, ActStep(lib, w, fault))
  {
    hide ActStep;
    if w.pc.InitPublishing? || w.pc.InitReleasing? { InitActPoint(lib, w, fault); }
    else { StaysServing(lib, w, fault); }
  }

  lemma OfflinePointReached(lib: Libraries, w: World, e: Event)
    requires Enabled(w, e)
    ensures PointReached(w, Next(lib, w, e))
  {
    if e.Act? {
      if IsReattach(w.pc) || IsRecover(w.pc) {
        hide PointReached, ActReattach, ActRecover;
        OfflineActPoint(w, e.fault);
      } else {
        hide PointReached, ActStep;
        ServingActPoint(lib, w, e.fault);
      }
    } else {
      hide PointReached, Next, Enabled;
      SurroundingsKeepPoint(lib, w, e);
    }
  }

  lemma SurroundingsKeepPoint(lib: Libraries, w: World, e: Event)
    requires Enabled(w, e) && !e.Act?
    ensures PointReached(w, Next(lib, w, e))
  {
    hide ActStep, Effective, Precheck;
  }

  lemma {:induction false} ReattachSaw(lib: Libraries, states: seq<World>, events: seq<Event>, i: nat) returns (n: nat)
    requires IsRun(lib, states, events) && i < |states| && states[i].pc.ReattachCommitting?
             && !states[0].pc.ReattachCommitting?
    ensures n < i && SawExact(states, n, states[i].pc.current, states[i].pc.run)
  {
    hide Next, Enabled;
    assert StepAt(lib, states, events, i - 1);
    OfflinePointReached(lib, states[i - 1], events[i - 1]);
    if states[i - 1].pc == states[i].pc { n := ReattachSaw(lib, states, events, i - 1); } else { n := i - 1; }
  }

  lemma {:induction false} RecoverSaw(lib: Libraries, states: seq<World>, events: seq<Event>, i: nat) returns (n: nat)
    requires IsRun(lib, states, events) && i < |states| && states[i].pc.RecoverReleasing?
             && !states[0].pc.RecoverReleasing?
    ensures n < i && SawExact(states, n, states[i].ledger.control, states[i].ledger.control.runId)
  {
    hide Next, Enabled;
    assert StepAt(lib, states, events, i - 1);
    OfflinePointReached(lib, states[i - 1], events[i - 1]);
    if states[i - 1].pc == states[i].pc && states[i - 1].pc.RecoverReleasing? {
      n := RecoverSaw(lib, states, events, i - 1);
    }
    else { n := i - 1; }
  }

  lemma {:induction false} InitWrote(lib: Libraries, states: seq<World>, events: seq<Event>, i: nat) returns (n: nat)
    requires IsRun(lib, states, events) && i < |states| && states[i].pc.InitReleasing? && !states[0].pc.InitReleasing?
    ensures n < i && WroteFirst(states, n, states[i].ledger.control)
  {
    hide Next, Enabled;
    assert StepAt(lib, states, events, i - 1);
    OfflinePointReached(lib, states[i - 1], events[i - 1]);
    if states[i - 1].pc == states[i].pc { n := InitWrote(lib, states, events, i - 1); } else { n := i - 1; }
  }

  /**
   * A halt is cleared, and a Redis process adopted, only after the exact current token was observed in that very
   * process acting as primary; initialization alone clears its own halt on having written the first token itself.
   */
  lemma ClearingNeedsExactMarker(lib: Libraries, states: seq<World>, events: seq<Event>, i: nat) returns (n: nat)
    requires SafeRun(lib, states, events) && i < |events|
    requires !states[0].pc.ReattachCommitting? && !states[0].pc.RecoverReleasing? && !states[0].pc.InitReleasing?
    requires states[i].ledger.control.halted && !states[i + 1].ledger.control.halted
    ensures n < i
    ensures if states[i].pc.InitReleasing? then WroteFirst(states, n, states[i].ledger.control)
            else SawExact(states, n, states[i].ledger.control, states[i + 1].ledger.control.runId)
  {
    hide Safe, StepAt, Next, Enabled;
    RunStep(lib, states, events, i);
    ClearingPoint(lib, states[i], events[i]);
    if states[i].pc.InitReleasing? { n := InitWrote(lib, states, events, i); }
    else if states[i].pc.ReattachCommitting? { n := ReattachSaw(lib, states, events, i); }
    else { n := RecoverSaw(lib, states, events, i); }
  }

  lemma ClearingPoint(lib: Libraries, w: World, e: Event)
    requires Safe(lib, w) && Enabled(w, e) && w.ledger.control.halted && !Next(lib, w, e).ledger.control.halted
    ensures w.pc.InitReleasing? || w.pc.RecoverReleasing? || w.pc.ReattachCommitting?
    ensures w.pc.ReattachCommitting? ==>
              w.pc.current == w.ledger.control && Next(lib, w, e).ledger.control.runId == w.pc.run
    ensures w.pc.RecoverReleasing? ==> Next(lib, w, e).ledger.control.runId == w.ledger.control.runId
  {
    hide Inv, NetOk, GrantsOk, ThenOk, Recovering, Next, Enabled, Transact;
    NextMove(lib, w, e);
    if w.pc.Transacting? { TransactMoved(lib, w.ledger, w.pc.req); }
  }
}
