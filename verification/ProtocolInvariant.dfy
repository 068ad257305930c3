/**
 * The inductive invariant of the protocol: what every step keeps, whatever Redis does and wherever the
 * process dies.
 */
module ProtocolInvariant {
  import opened Wrappers
  import opened Text
  import opened Json
  import opened ReplayKey
  import opened Ledger
  import opened LedgerInvariant
  import opened Protocol

  // ----- commands in flight -----

  /** No command in flight can move a marker past the current token, or away from the recorded transition. */
  ghost predicate MessageOk(m: Message, now: Token, pending: Option<PendingUpdate>) {
    TokenAtMost(m.target, now) &&
    (m.Cas? ==>
      TokenLess(m.previous, m.target) && (pending.Some? && m.previous == pending.value.previous ==> m.target == now))
  }

  ghost predicate NetOk(net: set<Message>, now: Token, pending: Option<PendingUpdate>) {
    forall m :: m in net ==> MessageOk(m, now, pending)
  }

  // ----- permissions -----

  /** The exact wire is a durable attempt of this id under this key. */
  ghost predicate Recorded(l: Ledger, id: string, key: string, payload: Json) {
    Holds(l.admissions, id, key) &&
    exists row :: row in l.attempts && row.id == id && row.replayKey == key
                  && CanonicalText(row.payload) == CanonicalText(payload)
  }

  /** What stays true of a grant for ever. */
  ghost predicate Durable(l: Ledger, g: Grant) {
    match g
    case Ordinary(id, key, payload) => Recorded(l, id, key, payload)
    case Recovery(id, payload, broadcasts, at) =>
      (exists key :: Recorded(l, id, key, payload)) && id in l.solana && broadcasts <= l.solana[id].broadcasts
      && 1 <= broadcasts
  }

  /** What is true of a grant when it is given. */
  ghost predicate Permitted(l: Ledger, g: Grant) {
    && Durable(l, g) && g.id in l.admissions && l.admissions[g.id].state.Admitted?
    && (g.Ordinary? ==> !ChainHalted(l, l.admissions[g.id].kind, g.key) && g.id !in l.solana)
    && (g.Recovery? ==> g.id in l.solana && l.solana[g.id].broadcasts == g.broadcasts && l.solana[g.id].last == g.at)
  }

  ghost predicate GrantsOk(l: Ledger, grants: seq<Grant>) {
    forall i :: 0 <= i < |grants| ==> Durable(l, grants[i])
  }

  /** Whatever this reply would grant is permitted. */
  ghost predicate ReplyOk(l: Ledger, req: Request, reply: Result<Reply, Error>) {
    forall i :: 0 <= i < |GrantOf(req, reply)| ==> Permitted(l, GrantOf(req, reply)[i])
  }

  ghost predicate ThenOk(l: Ledger, k: Then) {
    Precheck(k.req).Success? && (k.Return? ==> ReplyOk(l, k.req, k.reply))
  }

  // ----- program points -----

  ghost predicate Live(w: World) { !w.failed && !w.ledger.control.halted }

  ghost predicate Recovering(l: Ledger, before: Ledger) {
    RecoverAllowed(before, l.control.namespace) && l == TxRecover(before, l.control.namespace, l.control.runId)
  }

  /** What the process knows at each point: its local copies still agree with the ledger. */
  ghost predicate PcOk(w: World) {
    match w.pc
    case Down => true
    case Idle(_) => true
    case Gate(k) => k.Serve? && ThenOk(w.ledger, k)
    case Observing(k, c, p) =>
      Live(w) && ThenOk(w.ledger, k) && c == w.ledger.control && p == w.ledger.pending && (k.Return? ==> p.Some?)
    case Publishing(k, c, p) => Live(w) && ThenOk(w.ledger, k) && c == w.ledger.control && w.ledger.pending == Some(p)
    case Confirming(k, c, p) => Live(w) && ThenOk(w.ledger, k) && c == w.ledger.control && w.ledger.pending == Some(p)
    case Acknowledging(k, c, p) =>
      Live(w) && ThenOk(w.ledger, k) && c == w.ledger.control && w.ledger.pending == Some(p)
    case Settling(k, c) => Live(w) && ThenOk(w.ledger, k) && c == w.ledger.control && w.ledger.pending.None?
    case Transacting(req) =>
      Live(w) && Precheck(req).Success? && w.ledger.pending.None? && w.seen == Some(w.ledger.control)
    case MirrorReading(k, previous) =>
      Live(w) && ThenOk(w.ledger, k) && k.Return? && w.ledger.pending.Some?
      && w.ledger.pending.value.previous == TokenOf(previous)
    case Halting(k, _) => w.failed
    case InitPublishing => w.ledger.control.reason == Some(Initializing) && w.ledger.pending.None?
    case InitReleasing => w.ledger.control.reason == Some(Initializing) && w.ledger.pending.None?
    case ReattachReading(_) => true
    case ReattachObserving(c, p) => c == w.ledger.control && p == w.ledger.pending && ReattachAllowed(c)
    case ReattachCommitting(c, p, run) => c == w.ledger.control && p == w.ledger.pending && ReattachAllowed(c)
    case ReattachVerifying(c, run) => TokenOf(c) == TokenOf(w.ledger.control) && KeyOf(c) == KeyOf(w.ledger.control)
    case ReattachFencing(_) => true
    case RecoverReading(_) => true
    case RecoverObserving(namespace) => RecoverAllowed(w.ledger, namespace)
    case RecoverCommitting(namespace, run) => RecoverAllowed(w.ledger, namespace)
    case RecoverPublishing(before) => Recovering(w.ledger, before)
    case RecoverVerifying(before) => Recovering(w.ledger, before)
    case RecoverReleasing(before) => Recovering(w.ledger, before)
  }

  ghost predicate Safe(lib: Libraries, w: World) {
    && Inv(lib, w.ledger) && NetOk(w.net, TokenOf(w.ledger.control), w.ledger.pending)
    && GrantsOk(w.ledger, w.grants) && PcOk(w)
  }

  // ----- what one step may do -----

  /** A permission leaves the journal only confirmed, acknowledged and permitted, as the step's last act. */
  ghost predicate GrantStep(a: World, b: World) {
    b.grants == a.grants ||
    ( |b.grants| == |a.grants| + 1 && Permitted(b.ledger, b.grants[|a.grants|])
      && Live(b) && b.ledger.pending.None? && b.seen == Some(b.ledger.control) && b.pc.Idle? && b.pc.last.Success?)
  }

  ghost predicate Steps(a: World, b: World) {
    Evolves(a.ledger, b.ledger) && Prefix(a.grants, b.grants) && a.net <= b.net && a.written <= b.written
    && GrantStep(a, b)
  }

  // ----- commands in flight survive every ledger change -----

  lemma NetAdvances(net: set<Message>, a: Token, p: Option<PendingUpdate>, b: Token, q: Option<PendingUpdate>)
    requires NetOk(net, a, p) && TokenAtMost(a, b)
    requires q.None? || (q == p && a == b) || q.value.previous == a
    ensures NetOk(net, b, q)
  {
    forall m | m in net ensures MessageOk(m, b, q) { assert MessageOk(m, a, p); }
  }

  /** A direct predecessor is strictly earlier. */
  lemma PendingOrder(p: PendingUpdate, c: Control)
    requires PendingValid(p, c)
    ensures TokenLess(p.previous, p.target) && p.target == TokenOf(c)
  {}

  lemma SendsCas(net: set<Message>, p: PendingUpdate, c: Control)
    requires PendingValid(p, c) && NetOk(net, TokenOf(c), Some(p))
    ensures NetOk(net + {Cas(p.redisKey, p.previous, p.target)}, TokenOf(c), Some(p))
  {
    PendingOrder(p, c);
  }

  // ----- grants survive every ledger change -----

  lemma RecordedGrows(a: Ledger, b: Ledger, id: string, key: string, payload: Json)
    requires Recorded(a, id, key, payload) && TablesGrow(a, b)
    ensures Recorded(b, id, key, payload)
  {
    assert AdmissionGrows(a.admissions[id], b.admissions[id]);
    var row :| row in a.attempts && row.id == id && row.replayKey == key
      && CanonicalText(row.payload) == CanonicalText(payload);
    PrefixMember(a.attempts, b.attempts, row);
  }

  lemma PrefixMember<T>(a: seq<T>, b: seq<T>, x: T)
    requires Prefix(a, b) && x in a
    ensures x in b
  {
    var i :| 0 <= i < |a| && a[i] == x;
    assert b[..|a|][i] == x;
  }

  lemma DurableGrows(a: Ledger, b: Ledger, g: Grant)
    requires Durable(a, g) && TablesGrow(a, b)
    ensures Durable(b, g)
  {
    match g
    case Ordinary(id, key, payload) => RecordedGrows(a, b, id, key, payload);
    case Recovery(id, payload, broadcasts, at) =>
      var key :| Recorded(a, id, key, payload);
      RecordedGrows(a, b, id, key, payload);
      assert SolanaRowGrows(a.solana[id], b.solana[id]);
  }

  lemma GrantsGrow(a: Ledger, b: Ledger, grants: seq<Grant>)
    requires GrantsOk(a, grants) && Evolves(a, b)
    ensures GrantsOk(b, grants)
  {
    forall i | 0 <= i < |grants| ensures Durable(b, grants[i]) { DurableGrows(a, b, grants[i]); }
  }

  /** Permission depends on the tables alone. */
  lemma PermittedFrame(a: Ledger, b: Ledger, g: Grant)
    requires Permitted(a, g)
    requires a.admissions == b.admissions && a.attempts == b.attempts && a.solana == b.solana && a.halts == b.halts
    ensures Permitted(b, g)
  {
    if g.Recovery? {
      var key :| Recorded(a, g.id, key, g.payload);
      assert Recorded(b, g.id, key, g.payload);
    } else {
      assert Recorded(b, g.id, g.key, g.payload);
    }
  }

  lemma ThenFrame(a: Ledger, b: Ledger, k: Then)
    requires ThenOk(a, k)
    requires a.admissions == b.admissions && a.attempts == b.attempts && a.solana == b.solana && a.halts == b.halts
    ensures ThenOk(b, k)
  {
    if k.Return? {
      forall i | 0 <= i < |GrantOf(k.req, k.reply)| ensures Permitted(b, GrantOf(k.req, k.reply)[i]) {
        PermittedFrame(a, b, GrantOf(k.req, k.reply)[i]);
      }
    }
  }

  // ----- what a transaction leaves behind -----

  /** A transaction moves the checkpoint and records exactly that move, changes nothing, or records a contradiction. */
  ghost predicate Moved(l: Ledger, o: Outcome, req: Request) {
    if o.advanced then
      && l.pending.None? && o.ledger.pending == Some(Between(l.control, o.ledger.control))
      && PendingValid(o.ledger.pending.value, o.ledger.control) && o.reply != Failure(Storage)
      && (if req.Startup? then o.ledger.control == l.control.(schema := SCHEMA) && o.reply.Success?
          else o.ledger.control == l.control.(checkpoint := l.control.checkpoint + 1))
    else
      o.ledger == l ||
      ( req.RecordTerminal? && o.reply == Failure(RecoveryRequired) && o.ledger.pending == l.pending
        && o.ledger.control == l.control.(halted := true, reason := Some(TerminalConflict)))
  }

  lemma CommitMoved(l: Ledger, changed: Ledger, reply: Result<Reply, Error>, req: Request)
    requires changed.control == l.control && changed.pending == l.pending && !req.Startup? && reply != Failure(Storage)
    ensures Moved(l, Commit(l, changed, reply), req)
  {
    CommitSpec(l, changed, reply);
  }

  lemma BroadcastShape(l: Ledger, kind: Kind, id: string, key: string, attempt: Json)
    ensures var o := TxBroadcast(l, kind, id, key, attempt);
      (o.ledger == l && !o.advanced) ||
      ( id in l.admissions && l.admissions[id].kind == kind && l.admissions[id].state.Admitted?
        && !ChainHalted(l, kind, key)
        && (kind.Solana? ==> id !in l.solana)
        && o == Commit(l, Attempted(l, Attempt(id, key, AttemptDigest(attempt), attempt)), Success(Done)))
  {
    hide Commit, CanonicalText, FindAttempt, TakenByOther;
  }

  lemma TransactMoved(lib: Libraries, l: Ledger, req: Request)
    ensures Moved(l, Transact(lib, l, req), req)
  {
    match req
    case Startup =>
    case Opened =>
    case Health =>
    case Reserve(kind, id, fingerprint, payload) =>
      CommitMoved(l, l.(admissions := l.admissions[id := Admission(kind, fingerprint, payload, Admitted, None)]),
                  Success(Reserved(payload, false)), req);
    case ValidateBinding(_, _, _) =>
    case Broadcast(kind, id, key, attempt) => BroadcastMoved(l, req);
    case RecordTerminal(kind, id, evidence) => TerminalMoved(lib, l, req);
    case CommitCheckpoint(chain, expected, finality) => CheckpointMoved(l, req);
    case HaltChain(chain) => CommitMoved(l, l.(halts := l.halts + {Decimal(chain)}), Success(Done), req);
    case PrepareSolana(id, payload) => PrepareSolanaMoved(lib, l, req);
    case SolanaBroadcast(id, payload, attempt, now) => SolanaBroadcastMoved(lib, l, req);
  }

  lemma BroadcastMoved(l: Ledger, req: Request)
    requires req.Broadcast?
    ensures Moved(l, TxBroadcast(l, req.kind, req.id, req.key, req.attempt), req)
  {
    hide TxBroadcast, Commit;
    BroadcastShape(l, req.kind, req.id, req.key, req.attempt);
    if req.id in l.admissions {
      CommitMoved(l, Attempted(l, Attempt(req.id, req.key, AttemptDigest(req.attempt), req.attempt)), Success(Done),
                  req);
    }
  }

  lemma TerminalMoved(lib: Libraries, l: Ledger, req: Request)
    requires req.RecordTerminal?
    ensures Moved(l, TxRecordTerminal(lib, l, req.kind, req.id, req.evidence), req)
  {
    hide Commit, ValidateIdentity, FirstWitness, CanonicalText, TerminalIdentity;
    if req.id in l.admissions {
      CommitMoved(l, Witnessed(l, Witness(req.id, req.evidence)), Success(Done), req);
    }
  }

  lemma CheckpointMoved(l: Ledger, req: Request)
    requires req.CommitCheckpoint?
    ensures Moved(l, TxCommitCheckpoint(l, req.chain, req.expected, req.finality), req)
  {
    hide Commit, Decimal;
    CommitMoved(l, l.(halts := l.halts + {Decimal(req.chain)}), Failure(RecoveryRequired), req);
    CommitMoved(l, l.(checkpoints := l.checkpoints[Decimal(req.chain) := req.finality]), Success(Accepted(true)), req);
  }

  lemma PrepareSolanaMoved(lib: Libraries, l: Ledger, req: Request)
    requires req.PrepareSolana?
    ensures Moved(l, TxPrepareSolana(lib, l, req.id, req.payload), req)
  {
    hide Retain, Commit;
    var stored := Retain(lib, l, req.id, req.payload);
    if stored.Success? && stored.value.Some? {
      CommitMoved(l, l.(solana := l.solana[req.id := SolanaRow(stored.value.value.digest, 0, 0)]),
                  Success(Restored(stored.value)), req);
    }
  }

  lemma SolanaBroadcastMoved(lib: Libraries, l: Ledger, req: Request)
    requires req.SolanaBroadcast?
    ensures Moved(l, TxSolanaBroadcast(lib, l, req.id, req.payload, req.attempt, req.now), req)
  {
    hide Retain, Commit, CanonicalText, Fits;
    var stored := Retain(lib, l, req.id, req.payload);
    if stored.Success? && stored.value.Some? {
      var k := stored.value.value;
      CommitMoved(l, l.(solana := l.solana[req.id := SolanaRow(k.digest, k.broadcasts + 1, req.now)]),
                  Success(Permission(Granted(k.broadcasts + 1, req.now))), req);
    }
  }

  // ----- what a transaction permits -----

  lemma BroadcastPermits(lib: Libraries, l: Ledger, req: Request)
    requires Inv(lib, l) && req.Broadcast?
    ensures var o := TxBroadcast(l, req.kind, req.id, req.key, req.attempt);
            o.reply.Success? ==> Permitted(o.ledger, Ordinary(req.id, req.key, req.attempt))
  {
    var o := TxBroadcast(l, req.kind, req.id, req.key, req.attempt);
    if o.reply.Success? {
      var record := l.admissions[req.id];
      assert req.id in l.solana ==> SolanaRowOk(l.admissions, l.attempts, req.id, l.solana[req.id]);
      if o.advanced {
        var row := Attempt(req.id, req.key, AttemptDigest(req.attempt), req.attempt);
        CommitSpec(l, Attempted(l, row), Success(Done));
        assert o.ledger.attempts == l.attempts + [row] && row in o.ledger.attempts;
        assert Recorded(o.ledger, req.id, req.key, req.attempt);
      } else {
        var existing := FindAttempt(l.attempts, req.id, AttemptDigest(req.attempt)).value;
        assert existing in l.attempts;
        assert Recorded(l, req.id, req.key, req.attempt);
      }
    }
  }

  /** A recovery grant comes from the retained attempt and commits its spending. */
  lemma SolanaGrantShape(lib: Libraries, l: Ledger, req: Request)
    requires req.SolanaBroadcast?
             && GrantOf(req, TxSolanaBroadcast(lib, l, req.id, req.payload, req.attempt, req.now).reply) != []
    ensures var o, stored := TxSolanaBroadcast(lib, l, req.id, req.payload, req.attempt, req.now),
                Retain(lib, l, req.id, req.payload);
            && stored.Success? && stored.value.Some? && stored.value.value.recoveryMode
            && stored.value.value.state.Admitted?
            && CanonicalText(stored.value.value.payload) == CanonicalText(req.attempt)
            && var k := stored.value.value;
               o ==
                 Commit(l, l.(solana := l.solana[req.id := SolanaRow(k.digest, k.broadcasts + 1, req.now)]),
                        Success(Permission(Granted(k.broadcasts + 1, req.now))))
  {
    hide Retain, Commit, CanonicalText, Fits;
  }

  lemma SolanaPermits(lib: Libraries, l: Ledger, req: Request)
    requires Inv(lib, l) && req.SolanaBroadcast?
    ensures var o := TxSolanaBroadcast(lib, l, req.id, req.payload, req.attempt, req.now);
            ReplyOk(o.ledger, req, o.reply)
  {
    var o := TxSolanaBroadcast(lib, l, req.id, req.payload, req.attempt, req.now);
    assert SolanaOk(l.admissions, l.attempts, l.solana);
    hide Inv, SolanaOk, Retain, Commit, CanonicalText, Permitted, TxSolanaBroadcast;
    if GrantOf(req, o.reply) != [] {
      SolanaGrantShape(lib, l, req);
      RetainSpec(lib, l, req.id, req.payload);
      var k := Retain(lib, l, req.id, req.payload).value.value;
      CommitSpec(l, l.(solana := l.solana[req.id := SolanaRow(k.digest, k.broadcasts + 1, req.now)]),
                 Success(Permission(Granted(k.broadcasts + 1, req.now))));
      RecoveryPermitted(o.ledger, req.id, k.key, k.digest, k.payload, req.attempt, k.broadcasts + 1, req.now);
    }
  }

  lemma RecoveryPermitted(l: Ledger, id: string, key: string, digest: Digest, stored: Json, attempt: Json,
                          broadcasts: nat, at: nat)
    requires Holds(l.admissions, id, key) && l.admissions[id].state.Admitted?
    requires exists row :: row in l.attempts && row == Attempt(id, key, digest, stored)
    requires CanonicalText(stored) == CanonicalText(attempt)
    requires id in l.solana && l.solana[id] == SolanaRow(digest, broadcasts, at) && broadcasts >= 1
    ensures Permitted(l, Recovery(id, attempt, broadcasts, at))
  {
    assert Recorded(l, id, key, attempt);
  }

  /** A successful reply grants only what the ledger it leaves behind permits. */
  lemma TransactPermits(lib: Libraries, l: Ledger, req: Request)
    requires Inv(lib, l)
    ensures ReplyOk(Transact(lib, l, req).ledger, req, Transact(lib, l, req).reply)
  {
    hide Inv, TxBroadcast, TxSolanaBroadcast, TxReserve, TxRecordTerminal, TxMigrate, TxCommitCheckpoint,
         TxPrepareSolana, TxHaltChain, Permitted;
    if req.Broadcast? { BroadcastPermits(lib, l, req); }
    if req.SolanaBroadcast? { SolanaPermits(lib, l, req); }
  }

  // ----- assembling a step -----

  lemma GrantsAfter(a: World, b: World)
    requires GrantsOk(a.ledger, a.grants) && Evolves(a.ledger, b.ledger) && Prefix(a.grants, b.grants)
             && GrantStep(a, b)
    ensures GrantsOk(b.ledger, b.grants)
  {
    hide Evolves, Durable;
    GrantsGrow(a.ledger, b.ledger, a.grants);
    forall i | 0 <= i < |b.grants| ensures Durable(b.ledger, b.grants[i]) {
      if i < |a.grants| { assert b.grants[..|a.grants|][i] == b.grants[i]; }
    }
  }

  lemma Assemble(lib: Libraries, a: World, b: World)
    requires Safe(lib, a) && Inv(lib, b.ledger) && Evolves(a.ledger, b.ledger)
    requires NetOk(b.net, TokenOf(b.ledger.control), b.ledger.pending) && a.net <= b.net && a.written <= b.written
    requires Prefix(a.grants, b.grants) && GrantStep(a, b) && PcOk(b)
    ensures Safe(lib, b) && Steps(a, b)
  {
    hide Inv, Evolves, NetOk, PcOk, GrantsOk, GrantStep;
    GrantsAfter(a, b);
  }

  /** A step that leaves the ledger alone. */
  lemma Quiet(lib: Libraries, a: World, b: World)
    requires Safe(lib, a) && b.ledger == a.ledger && a.net <= b.net && a.written <= b.written
    requires NetOk(b.net, TokenOf(b.ledger.control), b.ledger.pending)
    requires Prefix(a.grants, b.grants) && GrantStep(a, b) && PcOk(b)
    ensures Safe(lib, b) && Steps(a, b)
  {
    hide Inv, Evolves, NetOk, PcOk, GrantsOk, GrantStep;
    EvolvesRefl(a.ledger);
    Assemble(lib, a, b);
  }

  lemma ProceedOk(a: World, k: Then)
    requires Live(a) && ThenOk(a.ledger, k) && a.ledger.pending.None? && a.seen == Some(a.ledger.control)
    ensures var b := Proceed(a, k);
            PcOk(b) && Prefix(a.grants, b.grants) && GrantStep(a, b) && b.ledger == a.ledger && b.net == a.net
            && b.written == a.written
  {
    hide Precheck, Permitted;
    if k.Return? && GrantOf(k.req, k.reply) != [] {
      assert Permitted(a.ledger, GrantOf(k.req, k.reply)[0]);
    }
  }

  // ----- each program point -----

  lemma GateSafe(lib: Libraries, w: World, fault: Fault)
    requires Safe(lib, w) && w.pc.Gate?
    ensures var b := ActGate(w, w.pc.k, fault); Safe(lib, b) && Steps(w, b)
  {
    assert w.ledger.control.schema == 1 ==> w.ledger.pending.None?;
    hide Inv, NetOk, GrantsOk, Permitted, Precheck, PendingValid;
    Quiet(lib, w, ActGate(w, w.pc.k, fault));
  }

  lemma ObserveSafe(lib: Libraries, w: World, fault: Fault)
    requires Safe(lib, w) && w.pc.Observing?
    ensures var b := ActObserve(w, w.pc.k, w.pc.current, w.pc.pending, fault); Safe(lib, b) && Steps(w, b)
  {
    hide Inv, NetOk, GrantsOk, Permitted, Precheck, Proceed;
    var b := ActObserve(w, w.pc.k, w.pc.current, w.pc.pending, fault);
    if w.pc.pending.None? { ProceedOk(w.(seen := Some(w.pc.current)), w.pc.k); }
    Quiet(lib, w, b);
  }

  lemma PublishSafe(lib: Libraries, w: World, fault: Fault)
    requires Safe(lib, w) && w.pc.Publishing?
    ensures var b := ActPublish(w, w.pc.k, w.pc.current, w.pc.update, fault); Safe(lib, b) && Steps(w, b)
  {
    SendsCas(w.net, w.pc.update, w.ledger.control);
    hide Inv, NetOk, GrantsOk, Permitted, Precheck;
    Quiet(lib, w, ActPublish(w, w.pc.k, w.pc.current, w.pc.update, fault));
  }

  lemma ConfirmSafe(lib: Libraries, w: World, fault: Fault)
    requires Safe(lib, w) && w.pc.Confirming?
    ensures var b := ActConfirm(w, w.pc.k, w.pc.current, w.pc.update, fault); Safe(lib, b) && Steps(w, b)
  {
    hide Inv, NetOk, GrantsOk, Permitted, Precheck;
    Quiet(lib, w, ActConfirm(w, w.pc.k, w.pc.current, w.pc.update, fault));
  }

  lemma AcknowledgeSafe(lib: Libraries, w: World, fault: Fault)
    requires Safe(lib, w) && w.pc.Acknowledging?
    ensures var b := ActAcknowledge(w, w.pc.k, w.pc.current, w.pc.update, fault); Safe(lib, b) && Steps(w, b)
  {
    var b := ActAcknowledge(w, w.pc.k, w.pc.current, w.pc.update, fault);
    AcknowledgeKeeps(lib, w.ledger);
    NetAdvances(w.net, TokenOf(w.ledger.control), w.ledger.pending, TokenOf(w.ledger.control), None);
    ThenFrame(w.ledger, w.ledger.(pending := None), w.pc.k);
    EvolvesRefl(w.ledger);
    hide Inv, Evolves, NetOk, GrantsOk, Permitted, Precheck, PendingValid;
    Assemble(lib, w, b);
  }

  lemma SettleSafe(lib: Libraries, w: World, fault: Fault)
    requires Safe(lib, w) && w.pc.Settling?
    ensures var b := ActSettle(w, w.pc.k, w.pc.current, fault); Safe(lib, b) && Steps(w, b)
  {
    hide Inv, NetOk, GrantsOk, Permitted, Precheck, Proceed;
    ProceedOk(w.(seen := Some(w.pc.current)), w.pc.k);
    Quiet(lib, w, ActSettle(w, w.pc.k, w.pc.current, fault));
  }

  /** What a transaction's step leaves: a proper program point, and no grant but the reply's own. */
  ghost predicate TransactLeads(lib: Libraries, w: World, b: World)
    requires w.pc.Transacting?
  {
    && PcOk(b) && Prefix(w.grants, b.grants) && GrantStep(w, b) && b.net == w.net && b.written == w.written
    && (b.ledger == w.ledger || b.ledger == Transact(lib, w.ledger, w.pc.req).ledger)
  }

  lemma TransactFails(lib: Libraries, w: World, fault: Fault)
    requires w.pc.Transacting? && !fault.NoFault?
    ensures TransactLeads(lib, w, ActTransact(lib, w, w.pc.req, fault))
  {
    hide Transact, Permitted, Precheck;
  }

  lemma TransactCommits(lib: Libraries, w: World)
    requires PcOk(w) && w.pc.Transacting? && Transact(lib, w.ledger, w.pc.req).advanced
    requires Moved(w.ledger, Transact(lib, w.ledger, w.pc.req), w.pc.req)
    requires ReplyOk(Transact(lib, w.ledger, w.pc.req).ledger, w.pc.req, Transact(lib, w.ledger, w.pc.req).reply)
    ensures TransactLeads(lib, w, ActTransact(lib, w, w.pc.req, NoFault))
  {
    hide Transact, ReplyOk, PendingValid;
  }

  lemma TransactAnswers(lib: Libraries, w: World)
    requires PcOk(w) && w.pc.Transacting? && !Transact(lib, w.ledger, w.pc.req).advanced
    requires Moved(w.ledger, Transact(lib, w.ledger, w.pc.req), w.pc.req)
    requires ReplyOk(Transact(lib, w.ledger, w.pc.req).ledger, w.pc.req, Transact(lib, w.ledger, w.pc.req).reply)
    ensures TransactLeads(lib, w, ActTransact(lib, w, w.pc.req, NoFault))
  {
    hide Transact, Permitted, PendingValid, Precheck;
    var o := Transact(lib, w.ledger, w.pc.req);
    if GrantOf(w.pc.req, o.reply) != [] { assert Permitted(o.ledger, GrantOf(w.pc.req, o.reply)[0]); }
  }

  /** Where a transaction leads: back to the caller, on to the mirror, or to a halt. */
  lemma TransactPc(lib: Libraries, w: World, fault: Fault)
    requires PcOk(w) && w.pc.Transacting?
    requires Moved(w.ledger, Transact(lib, w.ledger, w.pc.req), w.pc.req)
    requires ReplyOk(Transact(lib, w.ledger, w.pc.req).ledger, w.pc.req, Transact(lib, w.ledger, w.pc.req).reply)
    ensures TransactLeads(lib, w, ActTransact(lib, w, w.pc.req, fault))
  {
    hide Transact, ActTransact, PcOk, Moved, ReplyOk, TransactLeads;
    if !fault.NoFault? { TransactFails(lib, w, fault); }
    else if Transact(lib, w.ledger, w.pc.req).advanced { TransactCommits(lib, w); }
    else { TransactAnswers(lib, w); }
  }

  lemma TransactSafe(lib: Libraries, w: World, fault: Fault)
    requires Safe(lib, w) && w.pc.Transacting?
    ensures var b := ActTransact(lib, w, w.pc.req, fault); Safe(lib, b) && Steps(w, b)
  {
    var req := w.pc.req;
    var o := Transact(lib, w.ledger, req);
    assert Live(w) && Precheck(req).Success?;
    hide Inv, Evolves, NetOk, GrantsOk, PcOk, GrantStep, Precheck, Transact, PendingValid, ActTransact;
    TransactKeeps(lib, w.ledger, req);
    TransactMoved(lib, w.ledger, req);
    TransactPermits(lib, w.ledger, req);
    EvolvesRefl(w.ledger);
    NetAdvances(w.net, TokenOf(w.ledger.control), w.ledger.pending, TokenOf(o.ledger.control), o.ledger.pending);
    TransactPc(lib, w, fault);
    Assemble(lib, w, ActTransact(lib, w, req, fault));
  }

  lemma MirrorSafe(lib: Libraries, w: World, fault: Fault)
    requires Safe(lib, w) && w.pc.MirrorReading?
    ensures var b := ActMirror(w, w.pc.k, w.pc.previous, fault); Safe(lib, b) && Steps(w, b)
  {
    hide Inv, NetOk, GrantsOk, Permitted, Precheck, PendingValid;
    Quiet(lib, w, ActMirror(w, w.pc.k, w.pc.previous, fault));
  }

  lemma HaltSafe(lib: Libraries, w: World, fault: Fault)
    requires Safe(lib, w) && w.pc.Halting?
    ensures var b := ActHalt(w, w.pc.k, w.pc.reason, fault); Safe(lib, b) && Steps(w, b)
  {
    HaltedKeeps(lib, w.ledger, w.pc.reason);
    EvolvesRefl(w.ledger);
    hide Inv, Evolves, NetOk, GrantsOk;
    Assemble(lib, w, ActHalt(w, w.pc.k, w.pc.reason, fault));
  }

  lemma SetNxSafe(lib: Libraries, w: World, next: Pc, fault: Fault)
    requires Safe(lib, w) && PcOk(w.(pc := next))
    ensures var b := ActSetNx(w, next, fault); Safe(lib, b) && Steps(w, b)
  {
    var b := ActSetNx(w, next, fault);
    assert PcOk(b);
    hide Inv, GrantsOk, PcOk;
    Quiet(lib, w, b);
  }

  lemma InitPublishSafe(lib: Libraries, w: World, fault: Fault)
    requires Safe(lib, w) && w.pc.InitPublishing?
    ensures var b := ActSetNx(w, InitReleasing, fault); Safe(lib, b) && Steps(w, b)
  {
    hide Inv, NetOk, GrantsOk, Steps, ActSetNx;
    SetNxSafe(lib, w, InitReleasing, fault);
  }

  lemma ReleaseSafe(lib: Libraries, w: World, fault: Fault)
    requires Safe(lib, w) && (w.pc.InitReleasing? || w.pc.RecoverReleasing?)
    ensures var b := ActRelease(w, fault); Safe(lib, b) && Steps(w, b)
  {
    UnhaltedKeeps(lib, w.ledger);
    EvolvesRefl(w.ledger);
    hide Inv, Evolves, NetOk, GrantsOk;
    Assemble(lib, w, ActRelease(w, fault));
  }

  predicate IsReattach(pc: Pc) {
    pc.ReattachReading? || pc.ReattachObserving? || pc.ReattachCommitting? || pc.ReattachVerifying?
    || pc.ReattachFencing?
  }

  lemma ReattachPc(w: World, fault: Fault)
    requires PcOk(w) && IsReattach(w.pc) && LoadPending(w.ledger) == Success(w.ledger.pending)
    ensures var b := ActReattach(w, fault);
            && PcOk(b) && b.grants == w.grants && b.net == w.net && b.written == w.written
            && ( b.ledger == w.ledger
              || (w.pc.ReattachCommitting? && ReattachAllowed(w.ledger.control)
                && b.ledger == TxReattach(w.ledger, w.pc.run))
              || (w.pc.ReattachFencing? && b.ledger == Halted(w.ledger, w.pc.reason)))
  {
    hide LoadPending;
  }

  lemma ReattachSafe(lib: Libraries, w: World, fault: Fault)
    requires Safe(lib, w) && IsReattach(w.pc)
    ensures var b := ActReattach(w, fault); Safe(lib, b) && Steps(w, b)
  {
    var b := ActReattach(w, fault);
    assert LoadPending(w.ledger) == Success(w.ledger.pending);
    hide Inv, Evolves, NetOk, GrantsOk, PcOk, GrantStep, ActReattach, LoadPending, ReattachAllowed;
    ReattachPc(w, fault);
    EvolvesRefl(w.ledger);
    if b.ledger != w.ledger {
      if w.pc.ReattachCommitting? {
        ReattachKeeps(lib, w.ledger, w.pc.run);
        NetAdvances(w.net, TokenOf(w.ledger.control), w.ledger.pending, TokenOf(w.ledger.control), None);
      } else {
        HaltedKeeps(lib, w.ledger, w.pc.reason);
      }
    }
    SameGrants(w, b);
    Assemble(lib, w, b);
  }

  lemma SameGrants(a: World, b: World)
    requires a.grants == b.grants
    ensures GrantStep(a, b) && Prefix(a.grants, b.grants)
  {}

  predicate IsRecover(pc: Pc) {
    pc.RecoverReading? || pc.RecoverObserving? || pc.RecoverCommitting? || pc.RecoverPublishing?
    || pc.RecoverVerifying? || pc.RecoverReleasing?
  }

  lemma RecoverCommitSafe(lib: Libraries, w: World, fault: Fault)
    requires Safe(lib, w) && w.pc.RecoverCommitting?
    ensures var b := ActRecover(w, fault); Safe(lib, b) && Steps(w, b)
  {
    var b := ActRecover(w, fault);
    var after := TxRecover(w.ledger, w.pc.namespace, w.pc.run);
    assert RecoverAllowed(w.ledger, w.pc.namespace) && PcOk(b) && (b.ledger == w.ledger || b.ledger == after) by {
      hide RecoverAllowed;
    }
    hide Inv, Evolves, NetOk, GrantsOk, PcOk, GrantStep, RecoverAllowed;
    RecoverKeeps(lib, w.ledger, w.pc.namespace, w.pc.run);
    EvolvesRefl(w.ledger);
    NetAdvances(w.net, TokenOf(w.ledger.control), w.ledger.pending, TokenOf(after.control), None);
    SameGrants(w, b);
    Assemble(lib, w, b);
  }

  lemma RecoverReadSafe(lib: Libraries, w: World, fault: Fault)
    requires Safe(lib, w) && (w.pc.RecoverReading? || w.pc.RecoverObserving? || w.pc.RecoverVerifying?)
    ensures var b := ActRecover(w, fault); Safe(lib, b) && Steps(w, b)
  {
    var b := ActRecover(w, fault);
    assert PcOk(b) && b.ledger == w.ledger && b.grants == w.grants && b.net == w.net && b.written == w.written by {
      hide Inv, RecoverAllowed, TxRecover;
    }
    hide Inv, NetOk, GrantsOk, PcOk, GrantStep, ActRecover;
    SameGrants(w, b);
    Quiet(lib, w, b);
  }

  lemma RecoverSafe(lib: Libraries, w: World, fault: Fault)
    requires Safe(lib, w) && IsRecover(w.pc)
    ensures var b := ActRecover(w, fault); Safe(lib, b) && Steps(w, b)
  {
    match w.pc
    case RecoverPublishing(before) =>
      hide Inv, NetOk, GrantsOk, Steps, Recovering, ActSetNx;
      SetNxSafe(lib, w, RecoverVerifying(before), fault);
    case RecoverReleasing(_) =>
      hide Inv, NetOk, GrantsOk, Steps, Recovering, ActRelease;
      ReleaseSafe(lib, w, fault);
    case RecoverCommitting(_, _) =>
      hide Safe, Steps, ActRecover;
      RecoverCommitSafe(lib, w, fault);
    case _ =>
      hide Safe, Steps, ActRecover;
      RecoverReadSafe(lib, w, fault);
  }

  lemma ActSafe(lib: Libraries, w: World, fault: Fault)
    requires Safe(lib, w)
    ensures var b := ActStep(lib, w, fault); Safe(lib, b) && Steps(w, b)
  {
    hide Safe, Steps, ActGate, ActObserve, ActPublish, ActConfirm, ActAcknowledge, ActSettle, ActTransact, ActMirror,
         ActHalt, ActReattach, ActRecover, ActSetNx, ActRelease;
    match w.pc
    case Down => QuietSelf(lib, w);
    case Idle(_) => QuietSelf(lib, w);
    case Gate(_) => GateSafe(lib, w, fault);
    case Observing(_, _, _) => ObserveSafe(lib, w, fault);
    case Publishing(_, _, _) => PublishSafe(lib, w, fault);
    case Confirming(_, _, _) => ConfirmSafe(lib, w, fault);
    case Acknowledging(_, _, _) => AcknowledgeSafe(lib, w, fault);
    case Settling(_, _) => SettleSafe(lib, w, fault);
    case Transacting(_) => TransactSafe(lib, w, fault);
    case MirrorReading(_, _) => MirrorSafe(lib, w, fault);
    case Halting(_, _) => HaltSafe(lib, w, fault);
    case InitPublishing => InitPublishSafe(lib, w, fault);
    case InitReleasing => ReleaseSafe(lib, w, fault);
    case _ => if IsReattach(w.pc) { ReattachSafe(lib, w, fault); } else { RecoverSafe(lib, w, fault); }
  }

  lemma QuietSelf(lib: Libraries, w: World)
    requires Safe(lib, w)
    ensures Steps(w, w)
  {
    EvolvesRefl(w.ledger);
  }

  /** Every step, by the process, by Redis or by the operator, keeps the invariant and only grows the record. */
  lemma NextSafe(lib: Libraries, w: World, e: Event)
    requires Safe(lib, w) && Enabled(w, e)
    ensures Safe(lib, Next(lib, w, e)) && Steps(w, Next(lib, w, e))
  {
    var b := Next(lib, w, e);
    match e
    case Act(fault) => ActSafe(lib, w, fault);
    case OperatorHalt =>
      HaltedKeeps(lib, w.ledger, OperatorQuarantine);
      hide Inv, Evolves, NetOk, GrantsOk;
      Assemble(lib, w, b);
    case Call(req) =>
      hide Inv, NetOk, GrantsOk, Precheck;
      Quiet(lib, w, b);
    case _ =>
      hide Safe, Steps, Next, Enabled;
      SurroundingsSafe(lib, w, e);
  }

  /** Redis, delayed commands, crashes and starting processes leave the ledger and the grants alone. */
  lemma SurroundingsSafe(lib: Libraries, w: World, e: Event)
    requires Safe(lib, w) && Enabled(w, e) && !e.Act? && !e.OperatorHalt? && !e.Call?
    ensures Safe(lib, Next(lib, w, e)) && Steps(w, Next(lib, w, e))
  {
    var b := Next(lib, w, e);
    assert PcOk(b) && b.ledger == w.ledger && b.grants == w.grants && b.net == w.net && w.written <= b.written by {
      hide Inv, NetOk, GrantsOk, ThenOk, Effective, ActStep;
    }
    hide Inv, NetOk, GrantsOk, PcOk, GrantStep, Next, Enabled;
    SameGrants(w, b);
    Quiet(lib, w, b);
  }
}
