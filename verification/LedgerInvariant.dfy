/**
 * What every transaction keeps true of the ledger, and how the ledger may change from one state to any
 * later one. Both are stated table by table and proved transaction by transaction.
 */
module LedgerInvariant {
  import opened Wrappers
  import opened Text
  import opened Json
  import opened ReplayKey
  import opened Ledger
  import F = Finality

  // ----- the invariant -----

  /** A bound replay key has one owner. */
  ghost predicate KeysUnique(admissions: Admissions) {
    forall a, b, key :: Holds(admissions, a, key) && Holds(admissions, b, key) ==> a == b
  }

  /** An attempt row belongs to an admission, carries that admission's key, and is stored under its own digest. */
  ghost predicate RowOk(admissions: Admissions, row: Attempt) {
    Holds(admissions, row.id, row.replayKey) && row.digest == AttemptDigest(row.payload)
  }

  ghost predicate AttemptsOk(admissions: Admissions, attempts: seq<Attempt>) {
    forall row :: row in attempts ==> RowOk(admissions, row)
  }

  ghost predicate DigestsUnique(rows: seq<Attempt>) {
    forall i, j :: 0 <= i < j < |rows| ==> rows[i].id != rows[j].id || rows[i].digest != rows[j].digest
  }

  /** A key is bound, and a state left, only together with an attempt; bound keys are canonical for their kind. */
  ghost predicate AdmissionOk(row: Admission, attempts: seq<Attempt>, id: string) {
    (row.replayKey.Some? ==> HasAttempt(attempts, id) && ValidKey(row.kind, row.replayKey.value)) &&
    (!row.state.Admitted? ==> HasAttempt(attempts, id))
  }

  ghost predicate BoundOk(admissions: Admissions, attempts: seq<Attempt>) {
    forall id :: id in admissions ==> AdmissionOk(admissions[id], attempts, id)
  }

  ghost predicate HasWitness(rows: seq<Witness>, id: string) { exists w :: w in rows && w.id == id }

  ghost predicate IsTerminal(admissions: Admissions, id: string) { id in admissions && admissions[id].state.Terminal? }

  /** Exactly the terminal ids have a witness. */
  ghost predicate WitnessOk(admissions: Admissions, evidence: seq<Witness>) {
    (forall w :: w in evidence ==> IsTerminal(admissions, w.id)) &&
    (forall id :: IsTerminal(admissions, id) ==> HasWitness(evidence, id))
  }

  ghost predicate SolanaRowOk(admissions: Admissions, attempts: seq<Attempt>, id: string, row: SolanaRow) {
    id in admissions && admissions[id].kind.Solana? && HasAttempt(attempts, id) &&
    row.broadcasts <= MAX_SOLANA_RECOVERY_BROADCASTS && (row.broadcasts == 0 <==> row.last == 0)
  }

  ghost predicate SolanaOk(admissions: Admissions, attempts: seq<Attempt>, solana: map<string, SolanaRow>) {
    forall id :: id in solana ==> SolanaRowOk(admissions, attempts, id, solana[id])
  }

  /** A witness names one of its id's own attempts. */
  ghost predicate BackedBy(lib: Libraries, admissions: Admissions, attempts: seq<Attempt>, w: Witness) {
    w.id in admissions && admissions[w.id].replayKey.Some? &&
    exists row :: row in attempts && row.id == w.id &&
                  MatchAttempt(lib, admissions[w.id].kind, admissions[w.id].replayKey.value, w.evidence,
                               row.payload) == Success(true)
  }

  ghost predicate Backed(lib: Libraries, admissions: Admissions, attempts: seq<Attempt>, evidence: seq<Witness>) {
    forall w :: w in evidence ==> BackedBy(lib, admissions, attempts, w)
  }

  ghost predicate TablesOk(lib: Libraries, l: Ledger) {
    && KeysUnique(l.admissions) && AttemptsOk(l.admissions, l.attempts) && DigestsUnique(l.attempts)
    && BoundOk(l.admissions, l.attempts) && WitnessOk(l.admissions, l.evidence)
    && SolanaOk(l.admissions, l.attempts, l.solana) && Backed(lib, l.admissions, l.attempts, l.evidence)
  }

  ghost predicate ControlOk(l: Ledger) {
    && 1 <= l.control.schema <= SCHEMA && 1 <= l.control.epoch <= I64_MAX && l.control.checkpoint <= I64_MAX
    && (l.control.halted <==> l.control.reason.Some?)
    && (l.pending.Some? ==> PendingValid(l.pending.value, l.control))
    && (Conflicted(l.evidence) ==> l.control.reason == Some(TerminalConflict))
  }

  ghost predicate Inv(lib: Libraries, l: Ledger) { TablesOk(lib, l) && ControlOk(l) }

  // ----- how a ledger may change -----

  ghost predicate TokenLess(a: Token, b: Token) {
    a.deployment == b.deployment &&
    (a.epoch < b.epoch || (a.epoch == b.epoch &&
    (a.checkpoint < b.checkpoint || (a.checkpoint == b.checkpoint && a.schema < b.schema))))
  }

  ghost predicate TokenAtMost(a: Token, b: Token) { a == b || TokenLess(a, b) }

  ghost predicate Prefix<T>(a: seq<T>, b: seq<T>) { |a| <= |b| && b[..|a|] == a }

  /** An admission's intent never changes, a bound key keeps its value, and only Admitted can be left. */
  ghost predicate AdmissionGrows(a: Admission, b: Admission) {
    a.kind == b.kind && a.fingerprint == b.fingerprint && a.payload == b.payload &&
    (a.replayKey.Some? ==> b.replayKey == a.replayKey) && (!a.state.Admitted? ==> b.state == a.state)
  }

  ghost predicate AdmissionsGrow(a: Admissions, b: Admissions) {
    forall id :: id in a ==> id in b && AdmissionGrows(a[id], b[id])
  }

  /** The id may still be attempted as far as these admissions know. */
  ghost predicate Open(a: Admissions, id: string) { id in a ==> a[id].state.Admitted? }

  /** Attempts are only appended, and never for an id that has left Admitted. */
  ghost predicate AttemptsGrow(admissions: Admissions, a: seq<Attempt>, b: seq<Attempt>) {
    Prefix(a, b) && forall i :: |a| <= i < |b| ==> Open(admissions, b[i].id)
  }

  /** A chain's stored height never falls, its policy never changes, and the row at a height never changes. */
  ghost predicate CheckpointGrows(a: F.Evidence, b: F.Evidence) {
    a.checkpointNumber <= b.checkpointNumber && a.policy == b.policy
    && (a.checkpointNumber == b.checkpointNumber ==> a == b)
  }

  ghost predicate CheckpointsGrow(a: map<string, F.Evidence>, b: map<string, F.Evidence>) {
    forall c :: c in a ==> c in b && CheckpointGrows(a[c], b[c])
  }

  /** A spent recovery broadcast is never refunded, and each further one is at least an interval later. */
  ghost predicate SolanaRowGrows(a: SolanaRow, b: SolanaRow) {
    a.digest == b.digest && a.broadcasts <= b.broadcasts && (a.broadcasts == b.broadcasts ==> a.last == b.last) &&
    (0 < a.broadcasts ==> a.last + RECOVERY_BROADCAST_INTERVAL_MS * (b.broadcasts - a.broadcasts) <= b.last)
  }

  ghost predicate SolanaGrows(a: map<string, SolanaRow>, b: map<string, SolanaRow>) {
    forall id :: id in a ==> id in b && SolanaRowGrows(a[id], b[id])
  }

  /** Halted for a reason that only recovery into a new epoch may clear. */
  ghost predicate Fenced(c: Control) {
    c.halted && c.reason.Some?
    && c.reason.value in {CheckpointMismatch, LedgerUnavailable, TerminalConflict, OperatorQuarantine}
  }

  ghost predicate FenceHolds(a: Control, b: Control) {
    Fenced(a) ==> a.epoch < b.epoch || (Fenced(b) && b.reason == a.reason)
  }

  ghost predicate TablesGrow(a: Ledger, b: Ledger) {
    && AdmissionsGrow(a.admissions, b.admissions) && AttemptsGrow(a.admissions, a.attempts, b.attempts)
    && Prefix(a.evidence, b.evidence) && CheckpointsGrow(a.checkpoints, b.checkpoints)
    && a.halts <= b.halts && SolanaGrows(a.solana, b.solana)
  }

  ghost predicate Evolves(a: Ledger, b: Ledger) {
    && TablesGrow(a, b) && FenceHolds(a.control, b.control) && Prefix(a.events, b.events)
    && TokenAtMost(TokenOf(a.control), TokenOf(b.control))
  }

  lemma EvolvesRefl(l: Ledger)
    ensures Evolves(l, l)
  {}

  lemma PrefixTrans<T>(a: seq<T>, b: seq<T>, c: seq<T>)
    requires Prefix(a, b) && Prefix(b, c)
    ensures Prefix(a, c)
  {
    assert c[..|a|] == c[..|b|][..|a|];
  }

  lemma AttemptsGrowTrans(m: Admissions, n: Admissions, a: seq<Attempt>, b: seq<Attempt>, c: seq<Attempt>)
    requires AdmissionsGrow(m, n) && AttemptsGrow(m, a, b) && AttemptsGrow(n, b, c)
    ensures AttemptsGrow(m, a, c)
  {
    PrefixTrans(a, b, c);
    forall i | |a| <= i < |c| ensures Open(m, c[i].id) {
      if i < |b| { assert b[i] == c[..|b|][i]; } else { assert Open(n, c[i].id); }
    }
  }

  lemma EvolvesTrans(a: Ledger, b: Ledger, c: Ledger)
    requires Evolves(a, b) && Evolves(b, c)
    ensures Evolves(a, c)
  {
    AttemptsGrowTrans(a.admissions, b.admissions, a.attempts, b.attempts, c.attempts);
    PrefixTrans(a.evidence, b.evidence, c.evidence);
    PrefixTrans(a.events, b.events, c.events);
    assert AdmissionsGrow(a.admissions, c.admissions);
    assert CheckpointsGrow(a.checkpoints, c.checkpoints);
    assert SolanaGrows(a.solana, c.solana);
  }

  // ----- single-table updates -----

  /** Adding or editing one admission without touching its key. */
  lemma EditAdmission(rows: Admissions, id: string, row: Admission)
    requires KeysUnique(rows)
    requires if id in rows then row.replayKey == rows[id].replayKey else row.replayKey.None?
    ensures KeysUnique(rows[id := row])
    ensures forall x, key :: Holds(rows[id := row], x, key) <==> Holds(rows, x, key)
  {
    var after := rows[id := row];
    forall x, key ensures Holds(after, x, key) <==> Holds(rows, x, key) {}
    forall a, b, key | Holds(after, a, key) && Holds(after, b, key) ensures a == b {
      assert Holds(rows, a, key) && Holds(rows, b, key);
    }
  }

  lemma BindKey(rows: Admissions, id: string, key: string)
    requires KeysUnique(rows) && id in rows && !TakenByOther(rows, id, key)
    requires rows[id].replayKey.Some? ==> rows[id].replayKey.value == key
    ensures var after := rows[id := rows[id].(replayKey := Some(key))];
            KeysUnique(after) && AdmissionsGrow(rows, after) && Holds(after, id, key) &&
            forall x, k :: Holds(rows, x, k) ==> Holds(after, x, k)
  {
    var after := rows[id := rows[id].(replayKey := Some(key))];
    forall a, b, k | Holds(after, a, k) && Holds(after, b, k) ensures a == b {
      if a != id { assert Holds(rows, a, k); }
      if b != id { assert Holds(rows, b, k); }
    }
    forall x, k | Holds(rows, x, k) ensures Holds(after, x, k) {}
  }

  lemma AppendAttempt(attempts: seq<Attempt>, row: Attempt)
    ensures forall id :: HasAttempt(attempts, id) ==> HasAttempt(attempts + [row], id)
    ensures HasAttempt(attempts + [row], row.id)
  {
    assert row in attempts + [row];
    forall id | HasAttempt(attempts, id) ensures HasAttempt(attempts + [row], id) {
      var r :| r in attempts && r.id == id;
      assert r in attempts + [row];
    }
  }

  lemma AppendDigest(attempts: seq<Attempt>, row: Attempt)
    requires DigestsUnique(attempts) && FindAttempt(attempts, row.id, row.digest).None?
    ensures DigestsUnique(attempts + [row])
  {
    forall i | 0 <= i < |attempts| ensures attempts[i].id != row.id || attempts[i].digest != row.digest {
      assert attempts[i] in attempts;
    }
  }

  /** Witnesses stay backed while admissions and attempts only grow. */
  lemma BackedGrows(lib: Libraries, m: Admissions, n: Admissions, a: seq<Attempt>, b: seq<Attempt>,
                    evidence: seq<Witness>)
    requires Backed(lib, m, a, evidence) && AdmissionsGrow(m, n) && forall row :: row in a ==> row in b
    ensures Backed(lib, n, b, evidence)
  {
    forall w | w in evidence ensures BackedBy(lib, n, b, w) {
      assert BackedBy(lib, m, a, w);
      assert AdmissionGrows(m[w.id], n[w.id]);
    }
  }

  lemma AttemptsOkAppend(m: Admissions, n: Admissions, attempts: seq<Attempt>, row: Attempt)
    requires AttemptsOk(m, attempts) && RowOk(n, row) && forall x, k :: Holds(m, x, k) ==> Holds(n, x, k)
    ensures AttemptsOk(n, attempts + [row])
  {
    forall r | r in attempts + [row] ensures RowOk(n, r) {
      if r in attempts { assert RowOk(m, r); }
    }
  }

  lemma BoundOkEdit(m: Admissions, id: string, row: Admission, a: seq<Attempt>, b: seq<Attempt>)
    requires BoundOk(m, a) && AdmissionOk(row, b, id) && forall x :: HasAttempt(a, x) ==> HasAttempt(b, x)
    ensures BoundOk(m[id := row], b)
  {
    var n := m[id := row];
    forall x | x in n ensures AdmissionOk(n[x], b, x) {
      if x != id { assert AdmissionOk(m[x], a, x); }
    }
  }

  lemma SolanaOkGrows(m: Admissions, n: Admissions, a: seq<Attempt>, b: seq<Attempt>, solana: map<string, SolanaRow>)
    requires SolanaOk(m, a, solana) && AdmissionsGrow(m, n) && forall x :: HasAttempt(a, x) ==> HasAttempt(b, x)
    ensures SolanaOk(n, b, solana)
  {
    forall x | x in solana ensures SolanaRowOk(n, b, x, solana[x]) {
      assert SolanaRowOk(m, a, x, solana[x]);
      assert AdmissionGrows(m[x], n[x]);
    }
  }

  /** Editing an admission without making it terminal or undoing that. */
  lemma WitnessOkEdit(m: Admissions, id: string, row: Admission, evidence: seq<Witness>)
    requires WitnessOk(m, evidence) && (row.state.Terminal? <==> IsTerminal(m, id))
    ensures WitnessOk(m[id := row], evidence)
  {
    var n := m[id := row];
    forall x ensures IsTerminal(n, x) <==> IsTerminal(m, x) {}
  }

  lemma WitnessOkAppend(m: Admissions, id: string, row: Admission, evidence: seq<Witness>, w: Witness)
    requires WitnessOk(m, evidence) && w.id == id && row.state.Terminal?
    ensures WitnessOk(m[id := row], evidence + [w])
  {
    var n, after := m[id := row], evidence + [w];
    forall v | v in after ensures IsTerminal(n, v.id) {
      if v in evidence { assert IsTerminal(m, v.id); }
    }
    assert w in after;
    forall x | IsTerminal(n, x) ensures HasWitness(after, x) {
      if x != id {
        assert IsTerminal(m, x);
        var v :| v in evidence && v.id == x;
        assert v in after;
      }
    }
  }

  // ----- commits -----

  /** Advancing touches the control row alone, records the direct predecessor, and needs an empty pending slot. */
  lemma CommitSpec(before: Ledger, changed: Ledger, reply: Result<Reply, Error>)
    requires before.control == changed.control && before.pending == changed.pending
    ensures var o := Commit(before, changed, reply);
      o.advanced ==>
        && before.pending.None? && o.reply == reply
        && o.ledger.control == before.control.(checkpoint := before.control.checkpoint + 1)
        && o.ledger.pending == Some(Between(before.control, o.ledger.control))
        && PendingValid(o.ledger.pending.value, o.ledger.control)
        && o.ledger.control.checkpoint <= I64_MAX
        && o.ledger == changed.(control := o.ledger.control, pending := o.ledger.pending)
    ensures var o := Commit(before, changed, reply); !o.advanced ==> o.ledger == before && o.reply.Failure?
  {}

  /** A commit keeps the invariant when the changed tables do. */
  lemma CommitKeeps(lib: Libraries, l: Ledger, changed: Ledger, reply: Result<Reply, Error>)
    requires Inv(lib, l) && !l.control.halted
    requires changed.control == l.control && changed.pending == l.pending && changed.events == l.events
    requires TablesOk(lib, changed) && TablesGrow(l, changed)
             && (Conflicted(changed.evidence) ==> Conflicted(l.evidence))
    ensures Inv(lib, Commit(l, changed, reply).ledger) && Evolves(l, Commit(l, changed, reply).ledger)
  {
    CommitSpec(l, changed, reply);
  }

  // ----- each transaction -----

  lemma ReserveTables(lib: Libraries, l: Ledger, id: string, row: Admission)
    requires TablesOk(lib, l) && id !in l.admissions && row.replayKey.None? && row.state.Admitted?
    ensures TablesOk(lib, l.(admissions := l.admissions[id := row]))
            && TablesGrow(l, l.(admissions := l.admissions[id := row]))
  {
    var after := l.admissions[id := row];
    EditAdmission(l.admissions, id, row);
    BoundOkEdit(l.admissions, id, row, l.attempts, l.attempts);
    SolanaOkGrows(l.admissions, after, l.attempts, l.attempts, l.solana);
    WitnessOkEdit(l.admissions, id, row, l.evidence);
    BackedGrows(lib, l.admissions, after, l.attempts, l.attempts, l.evidence);
    assert AttemptsOk(after, l.attempts) by {
      forall r | r in l.attempts ensures RowOk(after, r) { assert RowOk(l.admissions, r); }
    }
  }

  lemma ReserveKeeps(lib: Libraries, l: Ledger, kind: Kind, id: string, fingerprint: Digest, payload: Json)
    requires Inv(lib, l) && !l.control.halted
    ensures var o := TxReserve(l, kind, id, fingerprint, payload); Inv(lib, o.ledger) && Evolves(l, o.ledger)
  {
    assert TablesOk(lib, l);
    hide Inv, Evolves, TablesOk, TablesGrow, Commit;
    EvolvesRefl(l);
    if id !in l.admissions {
      var row := Admission(kind, fingerprint, payload, Admitted, None);
      ReserveTables(lib, l, id, row);
      CommitKeeps(lib, l, l.(admissions := l.admissions[id := row]), Success(Reserved(payload, false)));
    }
  }

  /** The tables after a first attempt under a key. */
  function Attempted(l: Ledger, row: Attempt): Ledger
    requires row.id in l.admissions
  {
    l.(admissions := l.admissions[row.id := l.admissions[row.id].(replayKey := Some(row.replayKey))],
       attempts := l.attempts + [row])
  }

  /** A row for an open id may be appended. */
  lemma AppendGrows(admissions: Admissions, attempts: seq<Attempt>, row: Attempt)
    requires Open(admissions, row.id)
    ensures AttemptsGrow(admissions, attempts, attempts + [row]) && forall r :: r in attempts ==> r in attempts + [row]
  {
    assert (attempts + [row])[..|attempts|] == attempts;
  }

  /** What an attempt may be recorded under: an open admission, its own valid key, which nobody else holds. */
  ghost predicate MayAttempt(l: Ledger, row: Attempt) {
    && row.id in l.admissions && l.admissions[row.id].state.Admitted?
    && ValidKey(l.admissions[row.id].kind, row.replayKey) && !TakenByOther(l.admissions, row.id, row.replayKey)
    && (l.admissions[row.id].replayKey.Some? ==> l.admissions[row.id].replayKey.value == row.replayKey)
    && FindAttempt(l.attempts, row.id, row.digest).None? && row.digest == AttemptDigest(row.payload)
  }

  lemma AttemptedGrows(l: Ledger, row: Attempt)
    requires KeysUnique(l.admissions) && MayAttempt(l, row)
    ensures TablesGrow(l, Attempted(l, row))
    ensures KeysUnique(Attempted(l, row).admissions) && Holds(Attempted(l, row).admissions, row.id, row.replayKey)
    ensures forall x, k :: Holds(l.admissions, x, k) ==> Holds(Attempted(l, row).admissions, x, k)
  {
    BindKey(l.admissions, row.id, row.replayKey);
    AppendGrows(l.admissions, l.attempts, row);
    EvolvesRefl(l);
    hide KeysUnique, AdmissionsGrow, AttemptsGrow, CheckpointsGrow, SolanaGrows, ValidKey, TakenByOther, FindAttempt;
  }

  /** The key-bearing tables after an attempt. */
  lemma AttemptedRows(l: Ledger, row: Attempt)
    requires MayAttempt(l, row) && KeysUnique(l.admissions)
    requires AttemptsOk(l.admissions, l.attempts) && DigestsUnique(l.attempts) && BoundOk(l.admissions, l.attempts)
    ensures var t := Attempted(l, row);
            AttemptsOk(t.admissions, t.attempts) && DigestsUnique(t.attempts) && BoundOk(t.admissions, t.attempts)
  {
    var after := Attempted(l, row).admissions;
    AttemptedGrows(l, row);
    AppendAttempt(l.attempts, row);
    AppendDigest(l.attempts, row);
    hide KeysUnique, TablesGrow, AttemptsOk, DigestsUnique, BoundOk, ValidKey, TakenByOther, FindAttempt, HasAttempt;
    AttemptsOkAppend(l.admissions, after, l.attempts, row);
    BoundOkEdit(l.admissions, row.id, after[row.id], l.attempts, l.attempts + [row]);
  }

  lemma BroadcastTables(lib: Libraries, l: Ledger, row: Attempt)
    requires TablesOk(lib, l) && MayAttempt(l, row)
    ensures TablesOk(lib, Attempted(l, row)) && TablesGrow(l, Attempted(l, row))
  {
    var after, attempts := Attempted(l, row).admissions, l.attempts + [row];
    hide KeysUnique, AttemptsOk, DigestsUnique, BoundOk, WitnessOk, SolanaOk, Backed, HasAttempt;
    hide AdmissionsGrow, AttemptsGrow, CheckpointsGrow, SolanaGrows, ValidKey, TakenByOther, FindAttempt;
    AttemptedGrows(l, row);
    AttemptedRows(l, row);
    AppendAttempt(l.attempts, row);
    AppendGrows(l.admissions, l.attempts, row);
    SolanaOkGrows(l.admissions, after, l.attempts, attempts, l.solana);
    WitnessOkEdit(l.admissions, row.id, after[row.id], l.evidence);
    BackedGrows(lib, l.admissions, after, l.attempts, attempts, l.evidence);
  }

  lemma BroadcastKeeps(lib: Libraries, l: Ledger, kind: Kind, id: string, key: string, attempt: Json)
    requires Inv(lib, l) && !l.control.halted && ValidKey(kind, key)
    ensures var o := TxBroadcast(l, kind, id, key, attempt); Inv(lib, o.ledger) && Evolves(l, o.ledger)
  {
    assert TablesOk(lib, l);
    hide Inv, Evolves, TablesOk, TablesGrow, Commit, CanonicalText, ValidKey;
    EvolvesRefl(l);
    var o := TxBroadcast(l, kind, id, key, attempt);
    if o.ledger != l {
      var row := Attempt(id, key, AttemptDigest(attempt), attempt);
      BroadcastTables(lib, l, row);
      CommitKeeps(lib, l, Attempted(l, row), Success(Done));
    }
  }

  /** The tables after a witness is appended. */
  function Witnessed(l: Ledger, w: Witness): Ledger
    requires w.id in l.admissions
  {
    l.(evidence := l.evidence + [w], admissions := l.admissions[w.id := l.admissions[w.id].(state := Terminal)])
  }

  lemma WitnessTables(lib: Libraries, l: Ledger, w: Witness)
    requires TablesOk(lib, l) && w.id in l.admissions && !l.admissions[w.id].state.Quarantined?
    requires BackedBy(lib, l.admissions, l.attempts, w)
    ensures TablesOk(lib, Witnessed(l, w)) && TablesGrow(l, Witnessed(l, w))
    ensures !l.admissions[w.id].state.Terminal? && Conflicted(l.evidence + [w]) ==> Conflicted(l.evidence)
  {
    var after := Witnessed(l, w).admissions;
    EditAdmission(l.admissions, w.id, after[w.id]);
    BackedHasAttempt(lib, l.admissions, l.attempts, w);
    assert AdmissionOk(l.admissions[w.id], l.attempts, w.id);
    BoundOkEdit(l.admissions, w.id, after[w.id], l.attempts, l.attempts);
    SolanaOkGrows(l.admissions, after, l.attempts, l.attempts, l.solana);
    WitnessOkAppend(l.admissions, w.id, after[w.id], l.evidence, w);
    BackedAppend(lib, l.admissions, after, l.attempts, l.evidence, w);
    FirstWitnessUnique(l, w);
    assert AttemptsOk(after, l.attempts) by {
      forall r | r in l.attempts ensures RowOk(after, r) { assert RowOk(l.admissions, r); }
    }
  }

  lemma BackedHasAttempt(lib: Libraries, m: Admissions, attempts: seq<Attempt>, w: Witness)
    requires BackedBy(lib, m, attempts, w)
    ensures HasAttempt(attempts, w.id)
  {}

  lemma BackedAppend(lib: Libraries, m: Admissions, n: Admissions, attempts: seq<Attempt>, evidence: seq<Witness>,
                     w: Witness)
    requires Backed(lib, m, attempts, evidence) && BackedBy(lib, m, attempts, w) && AdmissionsGrow(m, n)
    ensures Backed(lib, n, attempts, evidence + [w])
  {
    forall v | v in evidence + [w] ensures BackedBy(lib, n, attempts, v) {
      assert BackedBy(lib, m, attempts, v);
      assert AdmissionGrows(m[v.id], n[v.id]);
    }
  }

  lemma FirstWitnessUnique(l: Ledger, w: Witness)
    requires WitnessOk(l.admissions, l.evidence)
    ensures !IsTerminal(l.admissions, w.id) && Conflicted(l.evidence + [w]) ==> Conflicted(l.evidence)
  {
    var evidence := l.evidence + [w];
    if !IsTerminal(l.admissions, w.id) && Conflicted(evidence) {
      var i, j :| 0 <= i < j < |evidence| && evidence[i].id == evidence[j].id;
      assert evidence[i] == l.evidence[i] && l.evidence[i] in l.evidence;
      assert j < |l.evidence|;
    }
  }

  lemma IdentityBacks(lib: Libraries, l: Ledger, w: Witness)
    requires w.id in l.admissions && ValidateIdentity(lib, l, w.id, l.admissions[w.id], w.evidence).Success?
    ensures BackedBy(lib, l.admissions, l.attempts, w) && !l.admissions[w.id].state.Quarantined?
  {
    var record := l.admissions[w.id];
    var i :| 0 <= i < |l.attempts| && l.attempts[i].id == w.id &&
      MatchAttempt(lib, record.kind, record.replayKey.value, w.evidence, l.attempts[i].payload) == Success(true);
    assert l.attempts[i] in l.attempts;
  }

  /** Recording evidence changes nothing, contradicts an earlier witness, or commits the first one. */
  lemma TerminalShape(lib: Libraries, l: Ledger, kind: Kind, id: string, evidence: Json)
    ensures var o, w := TxRecordTerminal(lib, l, kind, id, evidence), Witness(id, evidence);
            o.ledger == l ||
            ( id in l.admissions && ValidateIdentity(lib, l, id, l.admissions[id], evidence).Success?
              && if l.admissions[id].state.Terminal? then o.ledger == Contradicted(l, id, evidence)
                 else o == Commit(l, Witnessed(l, w), Success(Done)))
  {
    hide Commit, Contradicted, ValidateIdentity, FirstWitness, CanonicalText, TerminalIdentity;
  }

  /** A contradiction appends the second witness of a terminal id and halts the ledger. */
  lemma ContradictedIs(l: Ledger, w: Witness)
    requires w.id in l.admissions && l.admissions[w.id].state.Terminal? && !l.control.halted
    ensures var c, t := Contradicted(l, w.id, w.evidence), Witnessed(l, w);
            && c == t.(control := c.control, events := c.events) && Prefix(l.events, c.events)
            && c.control == l.control.(halted := true, reason := Some(TerminalConflict))
  {
    assert l.admissions[w.id := l.admissions[w.id].(state := Terminal)] == l.admissions;
  }

  lemma ContradictedKeeps(lib: Libraries, l: Ledger, w: Witness)
    requires Inv(lib, l) && !l.control.halted && w.id in l.admissions && l.admissions[w.id].state.Terminal?
    requires TablesOk(lib, Witnessed(l, w)) && TablesGrow(l, Witnessed(l, w))
    ensures Inv(lib, Contradicted(l, w.id, w.evidence)) && Evolves(l, Contradicted(l, w.id, w.evidence))
  {
    hide KeysUnique, AttemptsOk, DigestsUnique, BoundOk, WitnessOk, SolanaOk, Backed, Contradicted, Conflicted;
    hide AdmissionsGrow, AttemptsGrow, CheckpointsGrow, SolanaGrows, Prefix;
    ContradictedIs(l, w);
  }

  lemma TerminalKeeps(lib: Libraries, l: Ledger, kind: Kind, id: string, evidence: Json)
    requires Inv(lib, l) && !l.control.halted
    ensures var o := TxRecordTerminal(lib, l, kind, id, evidence); Inv(lib, o.ledger) && Evolves(l, o.ledger)
  {
    assert TablesOk(lib, l);
    hide Inv, Evolves, TablesOk, TablesGrow, TxRecordTerminal, Commit, Contradicted, ValidateIdentity, BackedBy,
         Conflicted;
    EvolvesRefl(l);
    TerminalShape(lib, l, kind, id, evidence);
    var w := Witness(id, evidence);
    if TxRecordTerminal(lib, l, kind, id, evidence).ledger != l {
      IdentityBacks(lib, l, w);
      WitnessTables(lib, l, w);
      if l.admissions[id].state.Terminal? { ContradictedKeeps(lib, l, w); }
      else { CommitKeeps(lib, l, Witnessed(l, w), Success(Done)); }
    }
  }

  lemma HaltChainKeeps(lib: Libraries, l: Ledger, name: string, reply: Result<Reply, Error>)
    requires Inv(lib, l) && !l.control.halted
    ensures var o := Commit(l, l.(halts := l.halts + {name}), reply); Inv(lib, o.ledger) && Evolves(l, o.ledger)
  {
    CommitKeeps(lib, l, l.(halts := l.halts + {name}), reply);
  }

  lemma StoreCheckpointKeeps(lib: Libraries, l: Ledger, name: string, e: F.Evidence, reply: Result<Reply, Error>)
    requires Inv(lib, l) && !l.control.halted && (name in l.checkpoints ==> CheckpointGrows(l.checkpoints[name], e))
    ensures var o := Commit(l, l.(checkpoints := l.checkpoints[name := e]), reply);
            Inv(lib, o.ledger) && Evolves(l, o.ledger)
  {
    CommitKeeps(lib, l, l.(checkpoints := l.checkpoints[name := e]), reply);
  }

  lemma CheckpointKeeps(lib: Libraries, l: Ledger, chain: nat, expected: Option<F.Evidence>, finality: F.Evidence)
    requires Inv(lib, l) && !l.control.halted
    ensures var o := TxCommitCheckpoint(l, chain, expected, finality); Inv(lib, o.ledger) && Evolves(l, o.ledger)
  {
    hide Inv, Evolves, Commit, Decimal;
    EvolvesRefl(l);
    HaltChainKeeps(lib, l, Decimal(chain), Failure(RecoveryRequired));
    if Decimal(chain) in l.checkpoints ==> CheckpointGrows(l.checkpoints[Decimal(chain)], finality) {
      StoreCheckpointKeeps(lib, l, Decimal(chain), finality, Success(Accepted(true)));
    }
  }

  lemma SolanaTables(lib: Libraries, l: Ledger, id: string, row: SolanaRow)
    requires TablesOk(lib, l) && SolanaRowOk(l.admissions, l.attempts, id, row)
    requires id in l.solana ==> SolanaRowGrows(l.solana[id], row)
    ensures TablesOk(lib, l.(solana := l.solana[id := row])) && TablesGrow(l, l.(solana := l.solana[id := row]))
  {
    var after := l.solana[id := row];
    forall x | x in after ensures SolanaRowOk(l.admissions, l.attempts, x, after[x]) {
      if x != id { assert SolanaRowOk(l.admissions, l.attempts, x, l.solana[x]); }
    }
  }

  /** A retained attempt is the id's own row, and its budget is the stored one. */
  lemma RetainSpec(lib: Libraries, l: Ledger, id: string, payload: Json)
    requires SolanaOk(l.admissions, l.attempts, l.solana)
    ensures var r := Retain(lib, l, id, payload);
      r.Success? && r.value.Some? ==>
        var k := r.value.value;
        && id in l.admissions && l.admissions[id].kind.Solana? && HasAttempt(l.attempts, id)
        && k.state == l.admissions[id].state
        && (k.recoveryMode <==> id in l.solana)
        && (k.recoveryMode ==> l.solana[id] == SolanaRow(k.digest, k.broadcasts, k.last))
        && k.broadcasts <= MAX_SOLANA_RECOVERY_BROADCASTS && (k.broadcasts == 0 <==> k.last == 0)
        && l.admissions[id].replayKey == Some(k.key)
        && exists row :: row in l.attempts && row == Attempt(id, k.key, k.digest, k.payload)
  {
    var r := Retain(lib, l, id, payload);
    if r.Success? && r.value.Some? {
      var first := AttemptsOf(l.attempts, id)[0];
      assert first in AttemptsOf(l.attempts, id);
      assert first == Attempt(id, r.value.value.key, r.value.value.digest, r.value.value.payload);
      if id in l.solana { assert SolanaRowOk(l.admissions, l.attempts, id, l.solana[id]); }
    }
  }

  lemma PrepareSolanaShape(lib: Libraries, l: Ledger, id: string, payload: Json)
    ensures var o, stored := TxPrepareSolana(lib, l, id, payload), Retain(lib, l, id, payload);
            o.ledger == l || (stored.Success? && stored.value.Some? && !stored.value.value.recoveryMode &&
                              o ==
                                Commit(l, l.(solana := l.solana[id := SolanaRow(stored.value.value.digest, 0, 0)]),
                                       Success(Restored(stored.value))))
  {
    hide Retain, Commit;
  }

  lemma PrepareSolanaKeeps(lib: Libraries, l: Ledger, id: string, payload: Json)
    requires Inv(lib, l) && !l.control.halted
    ensures var o := TxPrepareSolana(lib, l, id, payload); Inv(lib, o.ledger) && Evolves(l, o.ledger)
  {
    assert TablesOk(lib, l) && SolanaOk(l.admissions, l.attempts, l.solana);
    hide Inv, Evolves, TablesOk, TablesGrow, SolanaOk, Retain, Commit, HasAttempt, TxPrepareSolana;
    EvolvesRefl(l);
    PrepareSolanaShape(lib, l, id, payload);
    RetainSpec(lib, l, id, payload);
    if TxPrepareSolana(lib, l, id, payload).ledger != l {
      var stored := Retain(lib, l, id, payload).value;
      var row := SolanaRow(stored.value.digest, 0, 0);
      SolanaTables(lib, l, id, row);
      CommitKeeps(lib, l, l.(solana := l.solana[id := row]), Success(Restored(stored)));
    }
  }

  /** A claim leaves the ledger alone or commits one more broadcast, late enough. */
  lemma ClaimShape(l: Ledger, id: string, k: RetainedAttempt, now: nat)
    requires k.broadcasts == 0 <==> k.last == 0
    ensures var row := SolanaRow(k.digest, k.broadcasts + 1, now);
            Claim(l, id, k, now).ledger == l ||
            ( k.broadcasts < MAX_SOLANA_RECOVERY_BROADCASTS && now > 0
              && SolanaRowGrows(SolanaRow(k.digest, k.broadcasts, k.last), row)
              && Claim(l, id, k, now) ==
                Commit(l, l.(solana := l.solana[id := row]), Success(Permission(Granted(k.broadcasts + 1, now)))))
  {
    hide Commit;
  }

  lemma ClaimKeeps(lib: Libraries, l: Ledger, id: string, k: RetainedAttempt, now: nat)
    requires Inv(lib, l) && !l.control.halted && id in l.solana
             && l.solana[id] == SolanaRow(k.digest, k.broadcasts, k.last)
    ensures var o := Claim(l, id, k, now); Inv(lib, o.ledger) && Evolves(l, o.ledger)
  {
    assert TablesOk(lib, l) && SolanaRowOk(l.admissions, l.attempts, id, l.solana[id]);
    hide Inv, Evolves, TablesOk, TablesGrow, Claim, Commit, SolanaRowGrows;
    EvolvesRefl(l);
    ClaimShape(l, id, k, now);
    var row := SolanaRow(k.digest, k.broadcasts + 1, now);
    if Claim(l, id, k, now).ledger != l {
      SolanaTables(lib, l, id, row);
      CommitKeeps(lib, l, l.(solana := l.solana[id := row]), Success(Permission(Granted(k.broadcasts + 1, now))));
    }
  }

  lemma SolanaBroadcastShape(lib: Libraries, l: Ledger, id: string, payload: Json, attempt: Json, now: nat)
    ensures var o, stored := TxSolanaBroadcast(lib, l, id, payload, attempt, now), Retain(lib, l, id, payload);
            o.ledger == l || (stored.Success? && stored.value.Some? && stored.value.value.recoveryMode &&
                              o == Claim(l, id, stored.value.value, now))
  {
    hide Retain, Claim, CanonicalText, Fits;
  }

  lemma SolanaBroadcastKeeps(lib: Libraries, l: Ledger, id: string, payload: Json, attempt: Json, now: nat)
    requires Inv(lib, l) && !l.control.halted
    ensures var o := TxSolanaBroadcast(lib, l, id, payload, attempt, now); Inv(lib, o.ledger) && Evolves(l, o.ledger)
  {
    assert SolanaOk(l.admissions, l.attempts, l.solana);
    hide Inv, Evolves, SolanaOk, Retain, Claim, TxSolanaBroadcast;
    EvolvesRefl(l);
    SolanaBroadcastShape(lib, l, id, payload, attempt, now);
    RetainSpec(lib, l, id, payload);
    if TxSolanaBroadcast(lib, l, id, payload, attempt, now).ledger != l {
      ClaimKeeps(lib, l, id, Retain(lib, l, id, payload).value.value, now);
    }
  }

  lemma MigrateKeeps(lib: Libraries, l: Ledger)
    requires Inv(lib, l) && !l.control.halted
    ensures var o := TxMigrate(l); Inv(lib, o.ledger) && Evolves(l, o.ledger)
  {
    hide KeysUnique, AttemptsOk, DigestsUnique, BoundOk, WitnessOk, SolanaOk, Backed, Conflicted;
    hide AdmissionsGrow, AttemptsGrow, CheckpointsGrow, SolanaGrows;
    EvolvesRefl(l);
  }

  /** Every transaction keeps the invariant, and moves the ledger only as `Evolves` allows. */
  lemma TransactKeeps(lib: Libraries, l: Ledger, req: Request)
    requires Inv(lib, l) && !l.control.halted && Precheck(req).Success?
    ensures Inv(lib, Transact(lib, l, req).ledger) && Evolves(l, Transact(lib, l, req).ledger)
  {
    hide Inv, Evolves, TxMigrate, TxReserve, TxBroadcast, TxRecordTerminal, TxCommitCheckpoint, Commit,
         TxPrepareSolana, TxSolanaBroadcast;
    EvolvesRefl(l);
    match req
    case Startup => MigrateKeeps(lib, l);
    case Opened =>
    case Health =>
    case Reserve(kind, id, fingerprint, payload) => ReserveKeeps(lib, l, kind, id, fingerprint, payload);
    case ValidateBinding(_, _, _) =>
    case Broadcast(kind, id, key, attempt) => BroadcastKeeps(lib, l, kind, id, key, attempt);
    case RecordTerminal(kind, id, evidence) => TerminalKeeps(lib, l, kind, id, evidence);
    case CommitCheckpoint(chain, expected, finality) => CheckpointKeeps(lib, l, chain, expected, finality);
    case HaltChain(chain) => HaltChainKeeps(lib, l, Decimal(chain), Success(Done));
    case PrepareSolana(id, payload) => PrepareSolanaKeeps(lib, l, id, payload);
    case SolanaBroadcast(id, payload, attempt, now) => SolanaBroadcastKeeps(lib, l, id, payload, attempt, now);
  }

  // ----- control-row updates outside requests -----

  lemma AcknowledgeKeeps(lib: Libraries, l: Ledger)
    requires Inv(lib, l)
    ensures Inv(lib, l.(pending := None)) && Evolves(l, l.(pending := None))
  {}

  lemma HaltedKeeps(lib: Libraries, l: Ledger, reason: Reason)
    requires Inv(lib, l)
    ensures Inv(lib, Halted(l, reason)) && Evolves(l, Halted(l, reason))
  {}

  /** Releasing a ledger that no fence holds. */
  lemma UnhaltedKeeps(lib: Libraries, l: Ledger)
    requires Inv(lib, l) && !Fenced(l.control)
    ensures Inv(lib, Unhalted(l)) && Evolves(l, Unhalted(l))
  {}

  lemma ReattachKeeps(lib: Libraries, l: Ledger, run: string)
    requires Inv(lib, l) && ReattachAllowed(l.control)
    ensures Inv(lib, TxReattach(l, run)) && Evolves(l, TxReattach(l, run))
  {}

  /** Quarantine leaves every key, every terminal state and every attempt in place. */
  lemma QuarantineTables(lib: Libraries, l: Ledger)
    requires TablesOk(lib, l)
    ensures TablesOk(lib, l.(admissions := Quarantine(l)))
  {
    var after := Quarantine(l);
    QuarantineGrows(l);
    assert forall x, key :: Holds(after, x, key) <==> Holds(l.admissions, x, key);
    assert forall x :: IsTerminal(after, x) <==> IsTerminal(l.admissions, x);
    QuarantineBound(l);
    hide HasAttempt, DigestsUnique, BoundOk, Backed, SolanaOk, AdmissionsGrow, Quarantine;
    BackedGrows(lib, l.admissions, after, l.attempts, l.attempts, l.evidence);
    SolanaOkGrows(l.admissions, after, l.attempts, l.attempts, l.solana);
  }

  lemma QuarantineBound(l: Ledger)
    requires BoundOk(l.admissions, l.attempts)
    ensures BoundOk(Quarantine(l), l.attempts)
  {
    forall x | x in Quarantine(l) ensures AdmissionOk(Quarantine(l)[x], l.attempts, x) {
      assert AdmissionOk(l.admissions[x], l.attempts, x);
    }
  }

  lemma RecoverKeeps(lib: Libraries, l: Ledger, namespace: Option<string>, run: string)
    requires Inv(lib, l) && RecoverAllowed(l, namespace)
    ensures Inv(lib, TxRecover(l, namespace, run)) && Evolves(l, TxRecover(l, namespace, run))
  {
    hide KeysUnique, AttemptsOk, DigestsUnique, BoundOk, WitnessOk, SolanaOk, Backed, Quarantine, Conflicted;
    hide AdmissionsGrow, AttemptsGrow, CheckpointsGrow, SolanaGrows;
    QuarantineTables(lib, l);
    QuarantineGrows(l);
    EvolvesRefl(l);
  }

  lemma QuarantineGrows(l: Ledger)
    requires BoundOk(l.admissions, l.attempts)
    ensures AdmissionsGrow(l.admissions, Quarantine(l))
  {
    forall x | x in l.admissions ensures AdmissionGrows(l.admissions[x], Quarantine(l)[x]) {
      assert AdmissionOk(l.admissions[x], l.attempts, x);
    }
  }

  lemma InitialOk(lib: Libraries, deployment: string, namespace: Option<string>, runId: string)
    ensures Inv(lib, InitialLedger(deployment, namespace, runId))
  {}

  // ----- the check before signing and the gate before sending agree -----

  /** The ledger can record one more transition. */
  predicate CanAdvance(l: Ledger) { l.pending.None? && 2 <= l.control.schema && l.control.checkpoint < I64_MAX }

  lemma AdvanceIff(before: Ledger, changed: Ledger, reply: Reply)
    requires ControlOk(before) && before.control == changed.control && before.pending == changed.pending
    ensures Commit(before, changed, Success(reply)).reply.Success? <==> CanAdvance(before)
  {}

  /** A retry of a stored wire finds its row as it was written. */
  lemma StoredWireMatches(lib: Libraries, l: Ledger, id: string, attempt: Json)
    requires TablesOk(lib, l) && FindAttempt(l.attempts, id, AttemptDigest(attempt)).Some?
    ensures var row := FindAttempt(l.attempts, id, AttemptDigest(attempt)).value;
            Holds(l.admissions, id, row.replayKey) && CanonicalText(row.payload) == CanonicalText(attempt)
  {
    var row := FindAttempt(l.attempts, id, AttemptDigest(attempt)).value;
    assert RowOk(l.admissions, row);
    hide TablesOk, FindAttempt, CanonicalText;
  }

  /** What a broadcast asks beyond the binding check. */
  lemma BroadcastAsks(l: Ledger, kind: Kind, id: string, key: string, attempt: Json)
    requires l.control.schema <= SCHEMA
    ensures TxBroadcast(l, kind, id, key, attempt).reply.Success? <==>
              && TxValidateBinding(l, kind, id, key).reply.Success?
              && (kind.Solana? ==> id !in l.solana && l.control.schema == SCHEMA)
              && WireFits(l, id, key, attempt)
  {
    hide CanonicalText, AttemptDigest, TakenByOther, ChainHalted, FindAttempt, Commit;
  }

  /** The wire is stored under the key, or can be. */
  predicate WireFits(l: Ledger, id: string, key: string, attempt: Json) {
    id in l.admissions &&
    match FindAttempt(l.attempts, id, AttemptDigest(attempt))
    case Some(row) =>
      Holds(l.admissions, id, key) && row.replayKey == key && CanonicalText(row.payload) == CanonicalText(attempt)
    case None =>
      Commit(l, Attempted(l, Attempt(id, key, AttemptDigest(attempt), attempt)), Success(Done)).reply.Success?
  }

  /**
   * A broadcast is permitted exactly when the binding check passes under its key, a Solana id is not in recovery
   * mode and the schema knows that mode, and either the wire is already stored or one more transition fits.
   */
  lemma BindingPredictsBroadcast(lib: Libraries, l: Ledger, kind: Kind, id: string, key: string, attempt: Json)
    requires Inv(lib, l)
    ensures TxBroadcast(l, kind, id, key, attempt).reply.Success? <==>
              && TxValidateBinding(l, kind, id, key).reply.Success?
              && (kind.Solana? ==> id !in l.solana && l.control.schema == SCHEMA)
              && (FindAttempt(l.attempts, id, AttemptDigest(attempt)).Some? || CanAdvance(l))
  {
    assert l.control.schema <= SCHEMA && ControlOk(l);
    BroadcastAsks(l, kind, id, key, attempt);
    hide Inv, TablesOk, ControlOk, CanonicalText, AttemptDigest, TakenByOther, ChainHalted, FindAttempt, Commit,
         CanAdvance, TxBroadcast;
    if FindAttempt(l.attempts, id, AttemptDigest(attempt)).Some? {
      StoredWireMatches(lib, l, id, attempt);
    } else if id in l.admissions {
      AdvanceIff(l, Attempted(l, Attempt(id, key, AttemptDigest(attempt), attempt)), Done);
    }
  }
}
