/** The durable recovery budget of a retained Solana attempt: at most twenty grants, each an interval after the last. */
module SolanaBudget {
  import opened Wrappers
  import opened Json
  import opened Ledger
  import opened LedgerInvariant
  import opened Protocol
  import opened ProtocolInvariant
  import opened Runs

  function Count(grants: seq<Grant>, id: string): nat {
    if grants == [] then 0
    else Count(grants[..|grants| - 1], id) + if grants[|grants| - 1].Recovery?
    && grants[|grants| - 1].id == id then 1 else 0
  }

  /** One recovery grant spends a smaller number than another, and at least an interval per number lies between them. */
  ghost predicate Earlier(g: Grant, h: Grant) {
    g.Recovery? && h.Recovery? && g.id == h.id ==>
      g.broadcasts < h.broadcasts && g.at + RECOVERY_BROADCAST_INTERVAL_MS * (h.broadcasts - g.broadcasts) <= h.at
  }

  /** A grant within the stored budget row. */
  ghost predicate Within(l: Ledger, g: Grant) {
    g.Recovery? ==>
      && g.id in l.solana && 1 <= g.broadcasts <= l.solana[g.id].broadcasts
      && g.at + RECOVERY_BROADCAST_INTERVAL_MS * (l.solana[g.id].broadcasts - g.broadcasts) <= l.solana[g.id].last
  }

  ghost predicate AllWithin(l: Ledger, grants: seq<Grant>) { forall i :: 0 <= i < |grants| ==> Within(l, grants[i]) }
  ghost predicate Ordered(grants: seq<Grant>) { forall i, j :: 0 <= i < j < |grants| ==> Earlier(grants[i], grants[j]) }

  /** The grant a committed operation will give once its checkpoint is confirmed. */
  function InFlight(w: World): seq<Grant> {
    match w.pc
    case Observing(k, _, _) => Due(k)
    case Publishing(k, _, _) => Due(k)
    case Confirming(k, _, _) => Due(k)
    case Acknowledging(k, _, _) => Due(k)
    case Settling(k, _) => Due(k)
    case MirrorReading(k, _) => Due(k)
    case _ => []
  }

  function Due(k: Then): seq<Grant> { if k.Return? then GrantOf(k.req, k.reply) else [] }

  ghost predicate Budgeted(w: World) {
    && AllWithin(w.ledger, w.grants) && Ordered(w.grants)
    && forall i, j :: 0 <= i < |w.grants| && 0 <= j < |InFlight(w)| ==> Earlier(w.grants[i], InFlight(w)[j])
  }

  /**
   * How a step moves grants along: nothing new, the grant due, or one straight from a transaction that needed no
   * commit.
   */
  ghost predicate Flow(lib: Libraries, w: World, b: World) {
    && (b.grants == w.grants || b.grants == w.grants + InFlight(w)
        || (w.pc.Transacting? && !Transact(lib, w.ledger, w.pc.req).advanced
          && b.grants == w.grants + GrantOf(w.pc.req, Transact(lib, w.ledger, w.pc.req).reply)))
    && (InFlight(b) == []
        || (InFlight(b) == InFlight(w) && b.grants == w.grants)
        || (w.pc.Transacting? && b.grants == w.grants && b.ledger == Transact(lib, w.ledger, w.pc.req).ledger
            && Transact(lib, w.ledger, w.pc.req).advanced
            && InFlight(b) == GrantOf(w.pc.req, Transact(lib, w.ledger, w.pc.req).reply)))
  }

  lemma GateFlow(lib: Libraries, w: World, fault: Fault)
    requires (w.pc.Gate? && w.pc.k.Serve?) || w.pc.MirrorReading? || w.pc.Halting?
    ensures Flow(lib, w, ActStep(lib, w, fault))
  {
    hide Transact, LoadPending;
  }

  lemma PublishFlow(lib: Libraries, w: World, fault: Fault)
    requires w.pc.Publishing? || w.pc.Confirming? || w.pc.Acknowledging?
    ensures Flow(lib, w, ActStep(lib, w, fault))
  {
    hide Transact, Confirm, Effective, PendingValid;
  }

  lemma ObserveFlow(lib: Libraries, w: World, fault: Fault)
    requires w.pc.Observing? || w.pc.Settling?
    ensures Flow(lib, w, ActStep(lib, w, fault))
  {
    hide Transact, Observe;
    if |InFlight(w)| == 0 { assert w.grants + InFlight(w) == w.grants; }
  }

  lemma ServingFlow(lib: Libraries, w: World, fault: Fault)
    requires w.pc.Gate? || w.pc.Observing? || w.pc.Publishing? || w.pc.Confirming? || w.pc.Acknowledging?
             || w.pc.Settling? || w.pc.MirrorReading? || w.pc.Halting?
    requires w.pc.Gate? ==> w.pc.k.Serve?
    ensures Flow(lib, w, ActStep(lib, w, fault))
  {
    hide Flow, ActStep;
    if w.pc.Observing? || w.pc.Settling? { ObserveFlow(lib, w, fault); }
    else if w.pc.Publishing? || w.pc.Confirming? || w.pc.Acknowledging? { PublishFlow(lib, w, fault); }
    else { GateFlow(lib, w, fault); }
  }

  lemma TransactFlow(lib: Libraries, w: World, fault: Fault)
    requires w.pc.Transacting?
    ensures Flow(lib, w, ActTransact(lib, w, w.pc.req, fault))
  {
    hide Transact;
  }

  lemma OfflineFlow(lib: Libraries, w: World, fault: Fault)
    requires w.pc.Down? || w.pc.Idle? || w.pc.InitPublishing? || w.pc.InitReleasing? || IsReattach(w.pc)
             || IsRecover(w.pc)
    ensures Flow(lib, w, ActStep(lib, w, fault))
  {
    hide Transact, LoadPending, RecoverAllowed, ReattachAllowed, TxRecover, TxReattach, Effective, Attached;
  }

  lemma NextFlow(lib: Libraries, w: World, e: Event)
    requires Safe(lib, w) && Enabled(w, e)
    ensures Flow(lib, w, Next(lib, w, e))
  {
    if e.Act? {
      assert w.pc.Gate? ==> w.pc.k.Serve? by { hide Inv, NetOk, GrantsOk, ThenOk; }
      if w.pc.Transacting? {
        hide Safe, ActTransact, Flow;
        TransactFlow(lib, w, e.fault);
      } else {
        hide Safe, ActStep, Flow;
        if w.pc.Down? || w.pc.Idle? || w.pc.InitPublishing? || w.pc.InitReleasing? || IsReattach(w.pc)
           || IsRecover(w.pc) {
          OfflineFlow(lib, w, e.fault);
        }
        else { ServingFlow(lib, w, e.fault); }
      }
    } else {
      hide Safe, ActStep, Transact, Effective, Precheck;
    }
  }

  lemma WithinGrows(a: Ledger, b: Ledger, grants: seq<Grant>)
    requires AllWithin(a, grants) && SolanaGrows(a.solana, b.solana)
    ensures AllWithin(b, grants)
  {
    forall i | 0 <= i < |grants| ensures Within(b, grants[i]) {
      var g := grants[i];
      assert Within(a, g);
      if g.Recovery? { assert SolanaRowGrows(a.solana[g.id], b.solana[g.id]); }
    }
  }

  /** A claim is later, by an interval, than everything granted from the row it extends. */
  lemma ClaimIsLater(lib: Libraries, l: Ledger, req: Request, grants: seq<Grant>)
    requires Inv(lib, l) && AllWithin(l, grants)
    ensures var o := Transact(lib, l, req);
            var due := GrantOf(req, o.reply);
            forall i, j :: 0 <= i < |grants| && 0 <= j < |due| ==> Earlier(grants[i], due[j])
    ensures var o := Transact(lib, l, req);
            var due := GrantOf(req, o.reply);
            !o.advanced ==> forall j :: 0 <= j < |due| ==> due[j].Ordinary?
  {
    var o := Transact(lib, l, req);
    var due := GrantOf(req, o.reply);
    if req.SolanaBroadcast? && due != [] {
      SolanaGrantShape(lib, l, req);
      assert SolanaOk(l.admissions, l.attempts, l.solana);
      hide Inv, SolanaOk, Transact, TxSolanaBroadcast, Commit, Retain;
      RetainSpec(lib, l, req.id, req.payload);
      var k := Retain(lib, l, req.id, req.payload).value.value;
      SolanaClaimGrows(lib, l, req, k);
      forall i | 0 <= i < |grants| ensures Earlier(grants[i], due[0]) { assert Within(l, grants[i]); }
    } else {
      hide Inv, Transact, AllWithin;
    }
  }

  lemma SolanaClaimGrows(lib: Libraries, l: Ledger, req: Request, k: RetainedAttempt)
    requires req.SolanaBroadcast? && Retain(lib, l, req.id, req.payload) == Success(Some(k))
             && (k.broadcasts == 0 <==> k.last == 0)
    requires var o := TxSolanaBroadcast(lib, l, req.id, req.payload, req.attempt, req.now); GrantOf(req, o.reply) != []
    ensures var o := TxSolanaBroadcast(lib, l, req.id, req.payload, req.attempt, req.now);
            GrantOf(req, o.reply) == [Recovery(req.id, req.attempt, k.broadcasts + 1, req.now)] && o.advanced
    ensures SolanaRowGrows(SolanaRow(k.digest, k.broadcasts, k.last), SolanaRow(k.digest, k.broadcasts + 1, req.now))
  {
    hide Retain, CanonicalText, Fits;
  }

  lemma OrderedAppend(grants: seq<Grant>, more: seq<Grant>)
    requires Ordered(grants) && |more| <= 1
    requires forall i, j :: 0 <= i < |grants| && 0 <= j < |more| ==> Earlier(grants[i], more[j])
    ensures Ordered(grants + more)
  {}

  lemma PermittedWithin(l: Ledger, g: Grant)
    requires Permitted(l, g)
    ensures Within(l, g)
  {
    hide Recorded;
  }

  /** The budget survives every step. */
  lemma BudgetStep(lib: Libraries, w: World, e: Event)
    requires Safe(lib, w) && Enabled(w, e) && Budgeted(w)
    ensures Budgeted(Next(lib, w, e))
  {
    var b := Next(lib, w, e);
    hide Next, Enabled, Inv, PcOk, NetOk, GrantsOk, Transact, AdmissionsGrow, AttemptsGrow, CheckpointsGrow,
         SolanaGrows, Permitted, GrantOf, InFlight;
    NextSafe(lib, w, e);
    NextFlow(lib, w, e);
    WithinGrows(w.ledger, b.ledger, w.grants);
    if w.pc.Transacting? { ClaimIsLater(lib, w.ledger, w.pc.req, w.grants); }
    if b.grants != w.grants {
      var more := b.grants[|w.grants|..];
      assert b.grants == w.grants + more;
      PermittedWithin(b.ledger, b.grants[|w.grants|]);
      OrderedAppend(w.grants, more);
    }
  }

  lemma {:induction false} BudgetHolds(lib: Libraries, states: seq<World>, events: seq<Event>, i: nat)
    requires SafeRun(lib, states, events) && Budgeted(states[0]) && i < |states|
    ensures Budgeted(states[i])
  {
    if i > 0 {
      hide Safe, StepAt, Budgeted, Next, Enabled;
      BudgetHolds(lib, states, events, i - 1);
      RunStep(lib, states, events, i - 1);
      BudgetStep(lib, states[i - 1], events[i - 1]);
    }
  }

  lemma {:induction false} CountBounded(grants: seq<Grant>, id: string, bound: nat)
    requires Ordered(grants)
    requires forall i :: 0 <= i < |grants| && grants[i].Recovery? && grants[i].id == id ==>
               1 <= grants[i].broadcasts <= bound
    ensures Count(grants, id) <= bound
  {
    if grants != [] {
      var n := |grants| - 1;
      var g := grants[n];
      if g.Recovery? && g.id == id {
        forall i | 0 <= i < n && grants[i].Recovery? && grants[i].id == id
          ensures grants[i].broadcasts <= g.broadcasts - 1
        {
          assert Earlier(grants[i], g);
        }
        CountBounded(grants[..n], id, g.broadcasts - 1);
      } else {
        CountBounded(grants[..n], id, bound);
      }
    }
  }

  /**
   * Over every run, crashes and disasters included, an id gets at most twenty recovery grants, each at least the
   * interval after the one before, whatever the clock does.
   */
  lemma RecoveryGrantsBounded(lib: Libraries, states: seq<World>, events: seq<Event>, i: nat, id: string)
    requires SafeRun(lib, states, events) && Budgeted(states[0]) && i < |states|
    ensures Count(states[i].grants, id) <= MAX_SOLANA_RECOVERY_BROADCASTS
    ensures forall m, n :: 0 <= m < n < |states[i].grants| ==> Earlier(states[i].grants[m], states[i].grants[n])
  {
    BudgetHolds(lib, states, events, i);
    hide SafeRun, ControlOk;
    RunInv(lib, states, events, i);
    var w := states[i];
    forall m | 0 <= m < |w.grants| && w.grants[m].Recovery? && w.grants[m].id == id
      ensures 1 <= w.grants[m].broadcasts <= MAX_SOLANA_RECOVERY_BROADCASTS
    {
      assert Within(w.ledger, w.grants[m]);
      assert SolanaRowOk(w.ledger.admissions, w.ledger.attempts, id, w.ledger.solana[id]);
    }
    hide TablesOk;
    CountBounded(w.grants, id, MAX_SOLANA_RECOVERY_BROADCASTS);
  }

  /** A fresh deployment has granted nothing. */
  lemma InitializedBudgeted(deployment: string, namespace: Option<string>, redis: Redis)
    ensures Budgeted(Initialized(deployment, namespace, redis))
  {}

  /** From the initialization of a deployment on, every id gets at most twenty recovery grants, an interval apart. */
  lemma DeploymentBudget(lib: Libraries, states: seq<World>, events: seq<Event>, deployment: string,
                         namespace: Option<string>, redis: Redis, i: nat, id: string)
    requires IsRun(lib, states, events) && states[0] == Initialized(deployment, namespace, redis) && i < |states|
    ensures Count(states[i].grants, id) <= MAX_SOLANA_RECOVERY_BROADCASTS
    ensures forall m, n :: 0 <= m < n < |states[i].grants| ==> Earlier(states[i].grants[m], states[i].grants[n])
  {
    hide IsRun, Safe, Budgeted;
    InitializedSafe(lib, deployment, namespace, redis);
    InitializedBudgeted(deployment, namespace, redis);
    hide Initialized;
    RecoveryGrantsBounded(lib, states, events, i, id);
  }

  lemma StaysInRecovery(lib: Libraries, states: seq<World>, events: seq<Event>, i: nat, j: nat, id: string)
    requires SafeRun(lib, states, events) && i <= j < |states| && id in states[i].ledger.solana
    ensures id in states[j].ledger.solana
  {
    hide SafeRun, AdmissionsGrow, AttemptsGrow, CheckpointsGrow;
    RunTables(lib, states, events, i, j);
  }

  /** A step grants an id in recovery mode nothing ordinary. */
  lemma NoOrdinaryInRecovery(w: World, b: World, id: string)
    requires GrantStep(w, b) && Prefix(w.grants, b.grants) && id in b.ledger.solana
    ensures |w.grants| <= |b.grants|
    ensures forall n :: 0 <= n < |w.grants| ==> b.grants[n] == w.grants[n]
    ensures forall n :: |w.grants| <= n < |b.grants| && b.grants[n].id == id ==> b.grants[n].Recovery?
  {
    hide Durable;
    assert forall n :: 0 <= n < |w.grants| ==> b.grants[..|w.grants|][n] == b.grants[n];
  }

  /** Recovery mode is permanent: an id in it never gets an ordinary grant again. */
  lemma {:induction false} RecoveryModeExcludesOrdinary(lib: Libraries, states: seq<World>, events: seq<Event>,
                                                        i: nat, j: nat, id: string)
    requires SafeRun(lib, states, events) && i <= j < |states| && id in states[i].ledger.solana
    ensures id in states[j].ledger.solana && |states[i].grants| <= |states[j].grants|
    ensures forall n :: |states[i].grants| <= n < |states[j].grants| && states[j].grants[n].id == id ==>
              states[j].grants[n].Recovery?
    decreases j
  {
    hide SafeRun, Safe, GrantStep, Evolves, Prefix;
    StaysInRecovery(lib, states, events, i, j, id);
    if i < j {
      RecoveryModeExcludesOrdinary(lib, states, events, i, j - 1, id);
      RunSafe(lib, states, events, j - 1);
      NoOrdinaryInRecovery(states[j - 1], states[j], id);
    }
  }

  // ----- a spent budget -----

  /** All broadcasts of the id are spent, and the last of them is not still on its way to the caller. */
  ghost predicate Spent(w: World, id: string) {
    && id in w.ledger.solana && w.ledger.solana[id].broadcasts == MAX_SOLANA_RECOVERY_BROADCASTS
    && forall n :: 0 <= n < |InFlight(w)| ==> InFlight(w)[n].id != id
  }

  /** A recovery claim on a spent row is told so, whatever its clock says. */
  lemma SpentClaim(lib: Libraries, l: Ledger, req: Request)
    requires SolanaOk(l.admissions, l.attempts, l.solana) && req.SolanaBroadcast?
    requires req.id in l.solana && l.solana[req.id].broadcasts == MAX_SOLANA_RECOVERY_BROADCASTS
    ensures var o := TxSolanaBroadcast(lib, l, req.id, req.payload, req.attempt, req.now);
            o.reply.Failure? || o == Answer(l, Permission(Exhausted))
  {
    hide SolanaOk, Retain, Commit, CanonicalText, Fits;
    RetainSpec(lib, l, req.id, req.payload);
  }

  /** An id in recovery mode is refused an ordinary broadcast. */
  lemma SpentOrdinary(l: Ledger, req: Request)
    requires req.Broadcast? && req.id in l.solana && req.id in l.admissions && l.admissions[req.id].kind.Solana?
    ensures TxBroadcast(l, req.kind, req.id, req.key, req.attempt).reply.Failure?
  {
    hide Commit, AttemptDigest, CanonicalText, FindAttempt, TakenByOther, ChainHalted;
  }

  lemma SolanaRowKind(lib: Libraries, l: Ledger, id: string)
    requires Inv(lib, l) && id in l.solana
    ensures SolanaOk(l.admissions, l.attempts, l.solana) && id in l.admissions && l.admissions[id].kind.Solana?
  {
    hide ControlOk, KeysUnique, AttemptsOk, DigestsUnique, BoundOk, WitnessOk, Backed;
    assert SolanaRowOk(l.admissions, l.attempts, id, l.solana[id]);
  }

  /** On a spent row no request grants the id anything. */
  lemma SpentGrantsNothing(lib: Libraries, l: Ledger, req: Request, id: string)
    requires Inv(lib, l) && id in l.solana && l.solana[id].broadcasts == MAX_SOLANA_RECOVERY_BROADCASTS
    ensures var granted := GrantOf(req, Transact(lib, l, req).reply);
            forall n :: 0 <= n < |granted| ==> granted[n].id != id
  {
    hide Inv, SolanaOk, TxSolanaBroadcast, TxBroadcast, Commit;
    SolanaRowKind(lib, l, id);
    if req.SolanaBroadcast? && req.id == id {
      SpentClaim(lib, l, req);
    } else if req.Broadcast? && req.id == id {
      SpentOrdinary(l, req);
    } else {
      hide Transact;
    }
  }

  /** The grants were only extended, and by none for this id. */
  ghost predicate NoneFor(a: seq<Grant>, b: seq<Grant>, id: string) {
    Prefix(a, b) && forall n :: |a| <= n < |b| ==> b[n].id != id
  }

  lemma NoneForTrans(a: seq<Grant>, b: seq<Grant>, c: seq<Grant>, id: string)
    requires NoneFor(a, b, id) && NoneFor(b, c, id)
    ensures NoneFor(a, c, id)
  {
    PrefixTrans(a, b, c);
    assert forall n :: 0 <= n < |b| ==> b[n] == c[..|b|][n];
  }

  lemma NoneForAppend(grants: seq<Grant>, more: seq<Grant>, id: string)
    requires forall n :: 0 <= n < |more| ==> more[n].id != id
    ensures NoneFor(grants, grants + more, id)
  {
    assert (grants + more)[..|grants|] == grants;
  }

  /** A spent row stays as it is. */
  lemma SpentRow(lib: Libraries, a: Ledger, b: Ledger, id: string)
    requires SolanaGrows(a.solana, b.solana) && Inv(lib, b) && id in a.solana
             && a.solana[id].broadcasts == MAX_SOLANA_RECOVERY_BROADCASTS
    ensures id in b.solana && b.solana[id].broadcasts == MAX_SOLANA_RECOVERY_BROADCASTS
  {
    hide ControlOk, KeysUnique, AttemptsOk, DigestsUnique, BoundOk, WitnessOk, Backed;
    assert SolanaRowOk(b.admissions, b.attempts, id, b.solana[id]);
    assert SolanaRowGrows(a.solana[id], b.solana[id]);
  }

  lemma SpentStep(lib: Libraries, w: World, e: Event, id: string)
    requires Safe(lib, w) && Enabled(w, e) && Spent(w, id)
    ensures Spent(Next(lib, w, e), id) && NoneFor(w.grants, Next(lib, w, e).grants, id)
  {
    var b := Next(lib, w, e);
    hide Next, Enabled, Inv, PcOk, NetOk, GrantsOk, Transact, AdmissionsGrow, AttemptsGrow, CheckpointsGrow,
         SolanaGrows, GrantOf, InFlight, NoneFor;
    NextSafe(lib, w, e);
    SpentRow(lib, w.ledger, b.ledger, id);
    NextFlow(lib, w, e);
    NoneForAppend(w.grants, [], id);
    assert w.grants + [] == w.grants;
    NoneForAppend(w.grants, InFlight(w), id);
    if w.pc.Transacting? {
      SpentGrantsNothing(lib, w.ledger, w.pc.req, id);
      NoneForAppend(w.grants, GrantOf(w.pc.req, Transact(lib, w.ledger, w.pc.req).reply), id);
    }
  }

  /**
   * Once an id's twenty broadcasts are spent it is never permitted anything again, ordinary or recovery, in any later
   * epoch either.
   */
  lemma {:induction false} SpentForever(lib: Libraries, states: seq<World>, events: seq<Event>, i: nat, j: nat,
                                        id: string)
    requires SafeRun(lib, states, events) && i <= j < |states| && Spent(states[i], id)
    ensures Spent(states[j], id) && NoneFor(states[i].grants, states[j].grants, id)
    decreases j
  {
    hide Safe, StepAt, Spent, Next, Enabled, NoneFor;
    if i == j {
      NoneForAppend(states[i].grants, [], id);
      assert states[i].grants + [] == states[i].grants;
    } else {
      SpentForever(lib, states, events, i, j - 1, id);
      RunStep(lib, states, events, j - 1);
      SpentStep(lib, states[j - 1], events[j - 1], id);
      NoneForTrans(states[i].grants, states[j - 1].grants, states[j].grants, id);
    }
  }

  // ----- the interval -----

  /** A claim at this time is told to wait. */
  predicate Waits(l: Ledger, id: string, k: RetainedAttempt, now: nat) {
    var r := Claim(l, id, k, now).reply;
    r.Success? && r.value.Permission? && r.value.permission.Wait?
  }

  /**
   * A refused claim is refused until an interval after the last broadcast, and at no later time. The wait it names
   * is exact, so waiting that long ends the refusal, unless the clock stands before the last broadcast: then, and
   * only then, the same wait is answered again.
   */
  lemma WaitIsExact(l: Ledger, id: string, k: RetainedAttempt, now: nat, wait: nat, t: nat)
    requires Claim(l, id, k, now).reply == Success(Permission(Wait(wait)))
    ensures Waits(l, id, k, t) <==> t < k.last + RECOVERY_BROADCAST_INTERVAL_MS
    ensures wait >= 1 && (Waits(l, id, k, now + wait) <==> now < k.last)
    ensures now >= k.last ==> Claim(l, id, k, now + wait - 1).reply == Success(Permission(Wait(1)))
  {
    hide Advance;
  }

  /**
   * A clock one second behind the last broadcast: the full interval is named, and after it a second is still missing.
   */
  lemma ClockBehindWaitsAgain(l: Ledger, id: string, digest: Digest, payload: Json)
    ensures var k := RetainedAttempt("solana:mainnet:id", digest, payload, Admitted, 1, 5000, true);
            && Claim(l, id, k, 4000).reply == Success(Permission(Wait(RECOVERY_BROADCAST_INTERVAL_MS)))
            && Claim(l, id, k, 4000 + RECOVERY_BROADCAST_INTERVAL_MS).reply == Success(Permission(Wait(1000)))
  {
    hide Advance;
  }
}
