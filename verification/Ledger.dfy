/**
 * The durable ledger: its tables as a value, and every SQL transaction of the journal as a function from
 * the ledger before to the ledger after. A transaction that fails returns the ledger it was given.
 * A row holds the JSON value its stored text denotes; where the code compares stored texts the model
 * compares `CanonicalText`.
 */
module Ledger {
  import opened Wrappers
  import opened Text
  import opened Json
  import opened ReplayKey
  import F = Finality

  const SCHEMA := 3
  const MAX_ID_BYTES := 1024
  const MAX_SOLANA_RECOVERY_BROADCASTS := 20
  const RECOVERY_BROADCAST_INTERVAL_MS := 2_000

  datatype Error = PublicationPending | Busy | Storage | RecoveryRequired | Conflict | Invalid

  /** Why the ledger is halted. */
  datatype Reason =
    | Initializing
    | RecoveryIncomplete
    | ProcessChanged
    | ContinuityUnavailable
    | RoleChanged
    | CheckpointMismatch
    | LedgerUnavailable
    | TerminalConflict
    | OperatorQuarantine

  datatype State = Admitted | Terminal | Quarantined

  /** `v{schema}:{deployment}:{epoch}:{checkpoint}`. */
  datatype Token = Token(schema: nat, deployment: string, epoch: nat, checkpoint: nat)

  datatype Control = Control(
    schema: nat, deployment: string, epoch: nat, checkpoint: nat,
    namespace: Option<string>, runId: string, halted: bool, reason: Option<Reason>)

  datatype PendingUpdate = PendingUpdate(previous: Token, target: Token, redisKey: string, runId: string)

  datatype Admission = Admission(kind: Kind, fingerprint: Digest, payload: Json, state: State,
                                 replayKey: Option<string>)
  datatype Attempt = Attempt(id: string, replayKey: string, digest: Digest, payload: Json)
  datatype Witness = Witness(id: string, evidence: Json)
  datatype SolanaRow = SolanaRow(digest: Digest, broadcasts: nat, last: nat)
  datatype RecoveryEvent =
    | Reattached(previousRun: string, run: string, acknowledged: Option<PendingUpdate>)
    | Recovered(previousNamespace: Option<string>, namespace: Option<string>, previousEpoch: nat,
                discarded: Option<PendingUpdate>)

  datatype Ledger = Ledger(
    control: Control,
    admissions: Admissions,
    attempts: seq<Attempt>,
    evidence: seq<Witness>,
    checkpoints: map<string, F.Evidence>,
    halts: set<string>,
    solana: map<string, SolanaRow>,
    events: seq<RecoveryEvent>,
    pending: Option<PendingUpdate>)

  function TokenOf(c: Control): Token { Token(c.schema, c.deployment, c.epoch, c.checkpoint) }

  /** The default namespace prints as "engine". */
  function MarkerKey(namespace: Option<string>): string {
    (if namespace.Some? then namespace.value else "engine") + ":recovery:checkpoint"
  }

  function KeyOf(c: Control): string { MarkerKey(c.namespace) }

  // ----- the pending transition (recovery/projection.rs) -----

  /** A recorded transition belongs to this control row: same target, key and process, and a direct predecessor. */
  predicate PendingValid(p: PendingUpdate, c: Control) {
    && 2 <= c.schema <= SCHEMA
    && p.target == TokenOf(c) && p.redisKey == KeyOf(c) && p.runId == c.runId
    && ( (c.checkpoint > 0 && p.previous == TokenOf(c).(checkpoint := c.checkpoint - 1))
      || (1 <= p.previous.schema < c.schema && p.previous == TokenOf(c).(schema := p.previous.schema)))
  }

  function Between(previous: Control, target: Control): PendingUpdate {
    PendingUpdate(TokenOf(previous), TokenOf(target), KeyOf(target), target.runId)
  }

  /** Read the pending record; a malformed one is a storage failure. */
  function LoadPending(l: Ledger): Result<Option<PendingUpdate>, Error> {
    if l.control.schema == 1 || l.pending.None? then Success(None)
    else if PendingValid(l.pending.value, l.control) then Success(l.pending)
    else Failure(Storage)
  }

  /** The pending table holds one row; recording over an existing one fails. */
  function Record(l: Ledger, previous: Control, target: Control): Result<Ledger, Error> {
    var p := Between(previous, target);
    if !PendingValid(p, target) || l.pending.Some? then Failure(Storage)
    else Success(l.(control := target, pending := Some(p)))
  }

  /** Move to the next checkpoint and record the transition, in the caller's transaction. */
  function Advance(l: Ledger): Result<Ledger, Error> {
    if l.control.checkpoint >= I64_MAX then Failure(Invalid)
    else Record(l, l.control, l.control.(checkpoint := l.control.checkpoint + 1))
  }

  function Acknowledge(l: Ledger, expected: PendingUpdate): Result<Ledger, Error> {
    if !PendingValid(expected, l.control) then Failure(Storage)
    else if l.control.halted || l.pending != Some(expected) then Failure(RecoveryRequired)
    else Success(l.(pending := None))
  }

  function Halted(l: Ledger, reason: Reason): Ledger {
    l.(control := l.control.(halted := true,
                             reason := Some(if l.control.reason.Some? then l.control.reason.value else reason)))
  }

  function Unhalted(l: Ledger): Ledger { l.(control := l.control.(halted := false, reason := None)) }

  // ----- requests and replies -----

  /** Decoders and hashes of libraries outside the model; a user operation that does not decode has no hash at all. */
  datatype Libraries = Libraries(
    hash: Json -> Option<nat>,
    signature: string -> Option<string>,
    address: Json -> Option<string>,
    uint256: Json -> Option<nat>,
    userOperationHash: (Json, nat, string) -> Option<Option<nat>>)

  datatype Request =
    | Startup
    | Opened
    | Health
    | Reserve(kind: Kind, id: string, fingerprint: Digest, payload: Json)
    | ValidateBinding(kind: Kind, id: string, key: string)
    | Broadcast(kind: Kind, id: string, key: string, attempt: Json)
    | RecordTerminal(kind: Kind, id: string, evidence: Json)
    | CommitCheckpoint(chain: nat, expected: Option<F.Evidence>, finality: F.Evidence)
    | HaltChain(chain: nat)
    | PrepareSolana(id: string, payload: Json)
    | SolanaBroadcast(id: string, payload: Json, attempt: Json, now: nat)

  datatype SolanaPermission = Granted(broadcasts: nat, at: nat) | Wait(retryAfter: nat) | Exhausted

  datatype RetainedAttempt = RetainedAttempt(key: string, digest: Digest, payload: Json, state: State,
                                             broadcasts: nat, last: nat, recoveryMode: bool)

  datatype Reply =
    | Done
    | Reserved(payload: Json, terminal: bool)
    | Accepted(accepted: bool)
    | Restored(retained: Option<RetainedAttempt>)
    | Permission(permission: SolanaPermission)

  /** What a transaction leaves behind: the durable ledger, the reply, and whether it moved the checkpoint. */
  datatype Outcome = Outcome(ledger: Ledger, reply: Result<Reply, Error>, advanced: bool)

  function Abort(l: Ledger, e: Error): Outcome { Outcome(l, Failure(e), false) }
  function Answer(l: Ledger, reply: Reply): Outcome { Outcome(l, Success(reply), false) }

  /** Commit changed tables together with the checkpoint, or nothing. */
  function Commit(before: Ledger, changed: Ledger, reply: Result<Reply, Error>): Outcome {
    var a := Advance(changed);
    if a.Failure? then Abort(before, a.error) else Outcome(a.value, reply, true)
  }

  // ----- admission -----

  /** What of a payload identifies the intent: generated nonces are left out. */
  function Intent(kind: Kind, payload: Json): Json {
    if !payload.Obj? then payload
    else if kind.Erc4337? then Obj(Without(payload.fields, "pregeneratedNonce"))
    else if kind.Eip7702? then Obj(Without(payload.fields, "nonce"))
    else payload
  }

  function AdmissionFingerprint(kind: Kind, payload: Json): Digest {
    Sha256(KindText(kind) + [0 as char] + CanonicalText(Intent(kind, payload)))
  }

  predicate ValidId(id: string) { 0 < |id| <= MAX_ID_BYTES }

  /** The checks a caller's arguments pass before any state is read. */
  function Precheck(req: Request): Result<(), Error> {
    match req
    case Reserve(kind, id, fingerprint, payload) =>
      if !ValidId(id) || !Fits(Intent(kind, payload)) then Failure(Invalid)
      else if AdmissionFingerprint(kind, payload) != fingerprint then Failure(Conflict)
      else if !Fits(payload) then Failure(Invalid)
      else Success(())
    case ValidateBinding(kind, id, key) =>
      if ValidId(id) && ValidKey(kind, key) then Success(()) else Failure(Invalid)
    case Broadcast(kind, id, key, attempt) =>
      if ValidId(id) && ValidKey(kind, key) && Fits(attempt) then Success(()) else Failure(Invalid)
    case RecordTerminal(kind, id, evidence) =>
      if ValidId(id) && Fits(TerminalIdentity(evidence)) && Fits(evidence) then Success(()) else Failure(Invalid)
    case PrepareSolana(id, payload) => if ValidId(id) then Success(()) else Failure(Invalid)
    case SolanaBroadcast(id, payload, attempt, now) => if ValidId(id) then Success(()) else Failure(Invalid)
    case _ => Success(())
  }

  function TxReserve(l: Ledger, kind: Kind, id: string, fingerprint: Digest, payload: Json): Outcome {
    if id in l.admissions then
      var prior := l.admissions[id];
      if prior.kind != kind || prior.fingerprint != fingerprint then Abort(l, Conflict)
      else if prior.state.Quarantined? then Abort(l, RecoveryRequired)
      else Answer(l, Reserved(prior.payload, prior.state.Terminal?))
    else
      var row := Admission(kind, fingerprint, payload, Admitted, None);
      Commit(l, l.(admissions := l.admissions[id := row]), Success(Reserved(payload, false)))
  }

  // ----- broadcast -----

  type Admissions = map<string, Admission>

  predicate Holds(rows: Admissions, id: string, key: string) { id in rows && rows[id].replayKey == Some(key) }

  /** Another id holds the key. */
  predicate TakenByOther(rows: Admissions, id: string, key: string) {
    exists other :: other in rows && other != id && Holds(rows, other, key)
  }

  predicate ChainHalted(l: Ledger, kind: Kind, key: string) {
    !kind.Solana? && ChainOf(key) in l.halts
  }

  /** The stored row of this id with this digest. */
  function FindAttempt(rows: seq<Attempt>, id: string, digest: Digest): (r: Option<Attempt>)
    ensures r.Some? ==> r.value in rows && r.value.id == id && r.value.digest == digest
    ensures r.None? ==> forall row :: row in rows ==> row.id != id || row.digest != digest
  {
    if rows == [] then None
    else if rows[0].id == id && rows[0].digest == digest then Some(rows[0])
    else FindAttempt(rows[1..], id, digest)
  }

  function TxValidateBinding(l: Ledger, kind: Kind, id: string, key: string): Outcome {
    if id !in l.admissions then Abort(l, RecoveryRequired)
    else
      var record := l.admissions[id];
      if record.kind != kind || (record.replayKey.Some? && record.replayKey.value != key) then Abort(l, Conflict)
      else if !record.state.Admitted? then Abort(l, RecoveryRequired)
      else if TakenByOther(l.admissions, id, key) then Abort(l, Conflict)
      else if ChainHalted(l, kind, key) then Abort(l, RecoveryRequired)
      else Answer(l, Done)
  }

  function TxBroadcast(l: Ledger, kind: Kind, id: string, key: string, attempt: Json): Outcome {
    if id !in l.admissions then Abort(l, RecoveryRequired)
    else
      var record := l.admissions[id];
      if record.kind != kind then Abort(l, Conflict)
      else if !record.state.Admitted? then Abort(l, RecoveryRequired)
      else if kind.Solana? && l.control.schema < SCHEMA then Abort(l, Storage)
      else if kind.Solana? && id in l.solana then Abort(l, RecoveryRequired)
      else if ChainHalted(l, kind, key) then Abort(l, RecoveryRequired)
      else if record.replayKey.Some? && record.replayKey.value != key then Abort(l, Conflict)
      else if TakenByOther(l.admissions, id, key) then Abort(l, Conflict)
      else
        var existing := FindAttempt(l.attempts, id, AttemptDigest(attempt));
        if existing.Some? then
          if existing.value.replayKey != key || CanonicalText(existing.value.payload) != CanonicalText(attempt)
             || record.replayKey != Some(key)
          then Abort(l, Storage)
          else Answer(l, Done)
        else
          var row := Attempt(id, key, AttemptDigest(attempt), attempt);
          Commit(l,
                 l.(admissions := l.admissions[id := record.(replayKey := Some(key))], attempts := l.attempts + [row]),
                 Success(Done))
  }

  // ----- terminal evidence -----

  /** Evidence without the moving checkpoint: a later checkpoint of the same settlement is the same identity. */
  function TerminalIdentity(evidence: Json): Json {
    if evidence.Obj? then Obj(DropCheckpoint(evidence.fields)) else evidence
  }

  /** Only the first field of that name is edited, and only when it is an object. */
  function DropCheckpoint(fields: seq<Field>): seq<Field> {
    if fields == [] then []
    else if fields[0].key == "finality" then
      [if fields[0].value.Obj?
       then Field("finality", Obj(Without(Without(fields[0].value.fields, "checkpointNumber"), "checkpointHash")))
       else fields[0]] + fields[1..]
    else [fields[0]] + DropCheckpoint(fields[1..])
  }

  function FieldHash(lib: Libraries, v: Json, name: string): Option<nat> {
    var f := Get(v, name);
    if f.Some? then lib.hash(f.value) else None
  }

  function FieldU64(v: Json, name: string): Option<nat> {
    var f := Get(v, name);
    if f.Some? && f.value.Num? && 0 <= f.value.number <= U64_MAX then Some(f.value.number) else None
  }

  function FieldText(v: Json, name: string): Option<string> {
    var f := Get(v, name);
    if f.Some? && f.value.Str? then Some(f.value.text) else None
  }

  function FieldSignature(lib: Libraries, v: Json): Option<string> {
    var f := FieldText(v, "signature");
    if f.Some? then lib.signature(f.value) else None
  }

  function FieldAddress(lib: Libraries, v: Json, name: string): Option<string> {
    var f := Get(v, name);
    if f.Some? then lib.address(f.value) else None
  }

  function FieldUint256(lib: Libraries, v: Json, name: string): Option<nat> {
    var f := Get(v, name);
    if f.Some? then lib.uint256(f.value) else None
  }

  /** Does one recorded attempt carry the identity a confirmation claims? */
  function MatchAttempt(lib: Libraries, kind: Kind, key: string, identity: Json, attempt: Json): Result<bool, Error> {
    match kind
    case Eoa => MatchHash(lib, identity, attempt)
    case EoaNoop => MatchHash(lib, identity, attempt)
    case Solana =>
      var signature := FieldSignature(lib, identity);
      var chain := FieldText(identity, "chainId");
      if signature.None? || chain.None? then Failure(Conflict)
      else Success(key == "solana:" + chain.value + ":" + signature.value && FieldSignature(lib, attempt) == signature)
    case Erc4337 => MatchUserOperation(lib, key, identity, attempt)
    case Eip7702 => Failure(Invalid)
  }

  function MatchHash(lib: Libraries, identity: Json, attempt: Json): Result<bool, Error> {
    var wanted := FieldHash(lib, identity, "transactionHash");
    if wanted.None? then Failure(Conflict) else Success(FieldHash(lib, attempt, "transactionHash") == wanted)
  }

  function MatchUserOperation(lib: Libraries, key: string, identity: Json, attempt: Json): Result<bool, Error> {
    var chain, sender, entrypoint := FieldU64(identity, "chainId"), FieldAddress(lib, identity, "sender"),
         FieldAddress(lib, identity, "entrypoint");
    var nonce, wanted := FieldUint256(lib, identity, "nonce"), FieldHash(lib, identity, "userOperationHash");
    if chain.None? || sender.None? || entrypoint.None? || nonce.None? || wanted.None? then Failure(Conflict)
    else if key != Join(["erc4337", Decimal(chain.value), entrypoint.value, sender.value, Decimal(nonce.value)], ':')
    then Failure(Conflict)
    else
      var operation := Get(attempt, "userOperation");
      if operation.None? || lib.userOperationHash(operation.value, chain.value, entrypoint.value).None? then
        Failure(Conflict)
      else Success(FieldU64(attempt, "chainId") == chain && FieldAddress(lib, attempt, "sender") == sender
                   && FieldAddress(lib, attempt, "entrypoint") == entrypoint
                   && FieldUint256(lib, attempt, "nonce") == nonce
                   && lib.userOperationHash(operation.value, chain.value, entrypoint.value).value == wanted)
  }

  /** Walk the id's attempts in order until one matches. */
  function ScanAttempts(lib: Libraries, kind: Kind, key: string, identity: Json, rows: seq<Attempt>,
                        id: string): (r: Result<(), Error>)
    ensures r.Success? ==>
      exists i :: 0 <= i < |rows| && rows[i].id == id
                  && MatchAttempt(lib, kind, key, identity, rows[i].payload) == Success(true)
  {
    if rows == [] then Failure(RecoveryRequired)
    else
      var rest := ScanAttempts(lib, kind, key, identity, rows[1..], id);
      assert forall i :: 0 <= i < |rows[1..]| ==> rows[1..][i] == rows[i + 1];
      if rows[0].id != id then rest
      else
        var m := MatchAttempt(lib, kind, key, identity, rows[0].payload);
        if m.Failure? then Failure(m.error) else if m.value then Success(()) else rest
  }

  /** A confirmation must name one of the admission's own recorded attempts. */
  function ValidateIdentity(lib: Libraries, l: Ledger, id: string, record: Admission,
                            identity: Json): Result<(), Error> {
    if record.state.Quarantined? || record.replayKey.None? then Failure(RecoveryRequired)
    else
      var key := record.replayKey.value;
      if !record.kind.Solana?
         && (FieldU64(identity, "chainId").None? || ParseU64(ChainOf(key)) != FieldU64(identity, "chainId"))
      then Failure(Conflict)
      else if ChainHalted(l, record.kind, key) || record.kind.Eip7702? then Failure(RecoveryRequired)
      else ScanAttempts(lib, record.kind, key, identity, l.attempts, id)
  }

  function FirstWitness(rows: seq<Witness>, id: string): (r: Option<Json>)
    ensures r.None? <==> forall i :: 0 <= i < |rows| ==> rows[i].id != id
    ensures r.Some? ==> exists i :: 0 <= i < |rows| && rows[i].id == id && rows[i].evidence == r.value &&
                                    forall j :: 0 <= j < i ==> rows[j].id != id
  {
    if rows == [] then None
    else
      var rest := FirstWitness(rows[1..], id);
      assert forall i :: 0 <= i < |rows[1..]| ==> rows[1..][i] == rows[i + 1];
      if rows[0].id == id then Some(rows[0].evidence)
      else
        assert rest.Some? ==> exists i :: 0 <= i < |rows| && rows[i].id == id && rows[i].evidence == rest.value &&
                                          forall j :: 0 <= j < i ==> rows[j].id != id by {
          if rest.Some? {
            var i :| 0 <= i < |rows[1..]| && rows[1..][i].id == id && rows[1..][i].evidence == rest.value &&
                     forall j :: 0 <= j < i ==> rows[1..][j].id != id;
            assert rows[i + 1].id == id;
            forall j | 0 <= j < i + 1 ensures rows[j].id != id {
              if j > 0 { assert rows[1..][j - 1].id != id; }
            }
          }
        }
        rest
  }

  function TxRecordTerminal(lib: Libraries, l: Ledger, kind: Kind, id: string, evidence: Json): Outcome {
    if id !in l.admissions then Abort(l, RecoveryRequired)
    else
      var record := l.admissions[id];
      if record.kind != kind then Abort(l, Conflict)
      else
        var checked := ValidateIdentity(lib, l, id, record, evidence);
        if checked.Failure? then Abort(l, checked.error)
        else if record.state.Terminal? then
          var previous := FirstWitness(l.evidence, id);
          if previous.None? then Abort(l, Storage)
          else if CanonicalText(TerminalIdentity(previous.value)) == CanonicalText(TerminalIdentity(evidence)) then
            Answer(l, Done)
          else Outcome(Contradicted(l, id, evidence), Failure(RecoveryRequired), false)
        else
          Commit(l, l.(evidence := l.evidence + [Witness(id, evidence)],
                       admissions := l.admissions[id := record.(state := Terminal)]), Success(Done))
  }

  /** A second, different witness is kept and halts the ledger, overwriting any earlier reason. */
  function Contradicted(l: Ledger, id: string, evidence: Json): Ledger {
    l.(evidence := l.evidence + [Witness(id, evidence)],
       control := l.control.(halted := true, reason := Some(TerminalConflict)))
  }

  // ----- finality checkpoints -----

  function TxCommitCheckpoint(l: Ledger, chain: nat, expected: Option<F.Evidence>, finality: F.Evidence): Outcome {
    var name := Decimal(chain);
    if name in l.halts then Abort(l, RecoveryRequired)
    else
      var current := if name in l.checkpoints then Some(l.checkpoints[name]) else None;
      if current != expected then Answer(l, Accepted(false))
      else if current.Some? && ConflictingCheckpoint(current.value, finality) then
        Commit(l, l.(halts := l.halts + {name}), Failure(RecoveryRequired))
      else if current.Some? && finality.checkpointNumber < current.value.checkpointNumber then
        Answer(l, Accepted(false))
      else if current.Some? && finality.checkpointNumber == current.value.checkpointNumber then
        Answer(l, Accepted(true))
      else Commit(l, l.(checkpoints := l.checkpoints[name := finality]), Success(Accepted(true)))
  }

  predicate ConflictingCheckpoint(previous: F.Evidence, next: F.Evidence) {
    previous.policy != next.policy
    || (previous.checkpointNumber == next.checkpointNumber && previous.checkpointHash != next.checkpointHash)
  }

  function TxHaltChain(l: Ledger, chain: nat): Outcome {
    Commit(l, l.(halts := l.halts + {Decimal(chain)}), Success(Done))
  }

  // ----- retained Solana attempts (recovery/solana_projection.rs) -----

  /** The rows of one id, in order. */
  function AttemptsOf(rows: seq<Attempt>, id: string): (r: seq<Attempt>)
    ensures forall row :: row in r <==> row in rows && row.id == id
  {
    if rows == [] then [] else (if rows[0].id == id then [rows[0]] else []) + AttemptsOf(rows[1..], id)
  }

  function Retain(lib: Libraries, l: Ledger, id: string, payload: Json): Result<Option<RetainedAttempt>, Error> {
    if id !in l.admissions then Failure(RecoveryRequired)
    else
      var record := l.admissions[id];
      if !record.kind.Solana? then Failure(Conflict)
      else if !Fits(payload) then Failure(Invalid)
      else if record.fingerprint != AdmissionFingerprint(Solana, payload)
              || CanonicalText(record.payload) != CanonicalText(payload) then
        Failure(Conflict)
      else if record.state.Quarantined? then Failure(RecoveryRequired)
      else if l.control.schema < SCHEMA then Failure(Storage)
      else
        var rows := AttemptsOf(l.attempts, id);
        if rows == [] then
          if record.replayKey.Some? || id in l.solana || !record.state.Admitted? then Failure(Storage)
          else Success(None)
        else if |rows| > 1 || record.replayKey != Some(rows[0].replayKey)
                || AttemptDigest(rows[0].payload) != rows[0].digest then
          Failure(Storage)
        else
          var wire := CheckRetainedWire(lib, rows[0]);
          if wire.Failure? then Failure(wire.error)
          else if id !in l.solana then
            Success(Some(RetainedAttempt(rows[0].replayKey, rows[0].digest, rows[0].payload, record.state, 0, 0,
                                         false)))
          else
            var row := l.solana[id];
            if row.digest != rows[0].digest || row.broadcasts > MAX_SOLANA_RECOVERY_BROADCASTS
               || (row.broadcasts == 0) != (row.last == 0)
            then Failure(Storage)
            else
              Success(Some(RetainedAttempt(rows[0].replayKey, rows[0].digest, rows[0].payload, record.state,
                                           row.broadcasts, row.last, true)))
  }

  function CheckRetainedWire(lib: Libraries, row: Attempt): Result<(), Error> {
    var signature, chain, attempt := FieldSignature(lib, row.payload), FieldText(row.payload, "chainId"),
         Get(row.payload, "attempt");
    if signature.None? || chain.None? || row.replayKey != "solana:" + chain.value + ":" + signature.value
       || attempt.None?
       || FieldText(attempt.value, "signature") != signature then Failure(Storage)
    else
      var wire := FieldText(attempt.value, "signed_transaction");
      if wire.None? || wire.value == "" then Failure(RecoveryRequired) else Success(())
  }

  function TxPrepareSolana(lib: Libraries, l: Ledger, id: string, payload: Json): Outcome {
    var stored := Retain(lib, l, id, payload);
    if stored.Failure? then Abort(l, stored.error)
    else if stored.value.None? || stored.value.value.recoveryMode then Answer(l, Restored(stored.value))
    else
      Commit(l, l.(solana := l.solana[id := SolanaRow(stored.value.value.digest, 0, 0)]),
             Success(Restored(stored.value)))
  }

  function TxSolanaBroadcast(lib: Libraries, l: Ledger, id: string, payload: Json, attempt: Json, now: nat): Outcome {
    var stored := Retain(lib, l, id, payload);
    if stored.Failure? then Abort(l, stored.error)
    else if stored.value.None? || !stored.value.value.recoveryMode || !stored.value.value.state.Admitted? then
      Abort(l, RecoveryRequired)
    else
      var retained := stored.value.value;
      if !Fits(attempt) then Abort(l, Invalid)
      else if CanonicalText(retained.payload) != CanonicalText(attempt) then Abort(l, Conflict)
      else Claim(l, id, retained, now)
  }

  /** Spend one recovery broadcast, if the budget and the interval allow it. */
  function Claim(l: Ledger, id: string, retained: RetainedAttempt, now: nat): Outcome {
    var elapsed := if now > retained.last then now - retained.last else 0;
    if retained.broadcasts >= MAX_SOLANA_RECOVERY_BROADCASTS then Answer(l, Permission(Exhausted))
    else if retained.last != 0 && elapsed < RECOVERY_BROADCAST_INTERVAL_MS then
      Answer(l, Permission(Wait(RECOVERY_BROADCAST_INTERVAL_MS - elapsed)))
    else if now == 0 || now > I64_MAX then Abort(l, Storage)
    else
      var row := SolanaRow(retained.digest, retained.broadcasts + 1, now);
      Commit(l, l.(solana := l.solana[id := row]), Success(Permission(Granted(retained.broadcasts + 1, now))))
  }

  // ----- start-up migration -----

  function TxMigrate(l: Ledger): Outcome {
    if l.control.schema == SCHEMA then Answer(l, Done)
    else if l.control.halted || l.pending.Some? then Abort(l, RecoveryRequired)
    else
      var r := Record(l, l.control, l.control.(schema := SCHEMA));
      if r.Failure? then Abort(l, r.error) else Outcome(r.value, Success(Done), true)
  }

  function Transact(lib: Libraries, l: Ledger, req: Request): Outcome {
    match req
    case Startup => TxMigrate(l)
    case Opened => Answer(l, Done)
    case Health => Answer(l, Done)
    case Reserve(kind, id, fingerprint, payload) => TxReserve(l, kind, id, fingerprint, payload)
    case ValidateBinding(kind, id, key) => TxValidateBinding(l, kind, id, key)
    case Broadcast(kind, id, key, attempt) => TxBroadcast(l, kind, id, key, attempt)
    case RecordTerminal(kind, id, evidence) => TxRecordTerminal(lib, l, kind, id, evidence)
    case CommitCheckpoint(chain, expected, finality) => TxCommitCheckpoint(l, chain, expected, finality)
    case HaltChain(chain) => TxHaltChain(l, chain)
    case PrepareSolana(id, payload) => TxPrepareSolana(lib, l, id, payload)
    case SolanaBroadcast(id, payload, attempt, now) => TxSolanaBroadcast(lib, l, id, payload, attempt, now)
  }

  // ----- offline transactions -----

  /** A new ledger is born halted and is released only after its marker is published. */
  function InitialLedger(deployment: string, namespace: Option<string>, runId: string): Ledger {
    Ledger(Control(SCHEMA, deployment, 1, 0, namespace, runId, true, Some(Initializing)), map[], [], [], map[], {},
           map[], [], None)
  }

  predicate Clearable(reason: Reason) { reason.ProcessChanged? || reason.ContinuityUnavailable? || reason.RoleChanged? }

  predicate ReattachAllowed(c: Control) {
    c.halted ==> c.reason.Some? && Clearable(c.reason.value)
  }

  function TxReattach(l: Ledger, run: string): Ledger {
    l.(control := l.control.(runId := run, halted := false, reason := None),
       pending := None,
       events := l.events + [Reattached(l.control.runId, run, l.pending)])
  }

  predicate HasAttempt(rows: seq<Attempt>, id: string) { exists row :: row in rows && row.id == id }

  /** Two witnesses of one id. */
  predicate Conflicted(rows: seq<Witness>) {
    exists i, j :: 0 <= i < j < |rows| && rows[i].id == rows[j].id
  }

  predicate NamespaceValid(namespace: Option<string>) {
    namespace.Some? ==>
      0 < |namespace.value| <= 128 &&
      forall i :: 0 <= i < |namespace.value| ==>
        var c := namespace.value[i];
        'a' <= c <= 'z' || 'A' <= c <= 'Z' || IsDigit(c) || c == '-' || c == '_'
  }

  predicate RecoverAllowed(l: Ledger, namespace: Option<string>) {
    namespace.Some? && NamespaceValid(namespace) && !Conflicted(l.evidence) && l.control.namespace != namespace
    && l.control.epoch < I64_MAX
  }

  function Quarantine(l: Ledger): Admissions {
    map id | id in l.admissions ::
      if !l.admissions[id].state.Terminal? && HasAttempt(l.attempts, id) then
        l.admissions[id].(state := Quarantined) else l.admissions[id]
  }

  function TxRecover(l: Ledger, namespace: Option<string>, run: string): Ledger {
    l.(control := l.control.(schema := SCHEMA, namespace := namespace, epoch := l.control.epoch + 1, checkpoint := 0,
                             runId := run, halted := true, reason := Some(RecoveryIncomplete)),
       admissions := Quarantine(l),
       pending := None,
       events := l.events + [Recovered(l.control.namespace, namespace, l.control.epoch, l.pending)])
  }
}
