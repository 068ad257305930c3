/**
 * The checkpoint protocol as a state machine. One step is one atomic action: a SQL transaction, one Redis
 * command, or one decision on what was read. Between any two steps Redis may restart, change role, lose or
 * roll back markers, a delayed command may still arrive, and the process may die.
 */
module Protocol {
  import opened Wrappers
  import opened Json
  import opened Ledger

  datatype Redis = Redis(runId: string, master: bool, markers: map<string, Token>)

  function Marker(r: Redis, key: string): Option<Token> {
    if key in r.markers then Some(r.markers[key]) else None
  }

  /** A command that writes a marker. Once sent it may take effect at any later time, or never, or again. */
  datatype Message = Cas(key: string, previous: Token, target: Token) | SetNx(key: string, target: Token)

  predicate Effective(r: Redis, m: Message) {
    match m
    case Cas(key, previous, target) => Marker(r, key) != Some(target) && Marker(r, key) == Some(previous)
    case SetNx(key, target) => key !in r.markers
  }

  function Apply(r: Redis, m: Message): Redis {
    if Effective(r, m) then r.(markers := r.markers[m.key := m.target]) else r
  }

  /** How one action of the process goes: well, lost before it took effect, or done but reported as failed. */
  datatype Fault = NoFault | Lost | Late

  /** A permission to send that left the journal. */
  datatype Grant =
    | Ordinary(id: string, key: string, payload: Json)
    | Recovery(id: string, payload: Json, broadcasts: nat, at: nat)

  /** What happens once the checkpoint is confirmed. */
  datatype Then = Serve(req: Request) | Return(req: Request, reply: Result<Reply, Error>)

  datatype Pc =
    | Down
    | Idle(last: Result<Reply, Error>)
    | Gate(k: Then)
    | Observing(k: Then, current: Control, pending: Option<PendingUpdate>)
    | Publishing(k: Then, current: Control, update: PendingUpdate)
    | Confirming(k: Then, current: Control, update: PendingUpdate)
    | Acknowledging(k: Then, current: Control, update: PendingUpdate)
    | Settling(k: Then, current: Control)
    | Transacting(req: Request)
    | MirrorReading(k: Then, previous: Control)
    | Halting(k: Then, reason: Reason)
    | InitPublishing
    | InitReleasing
    | ReattachReading(namespace: Option<string>)
    | ReattachObserving(current: Control, pending: Option<PendingUpdate>)
    | ReattachCommitting(current: Control, pending: Option<PendingUpdate>, run: string)
    | ReattachVerifying(current: Control, run: string)
    | ReattachFencing(reason: Reason)
    | RecoverReading(namespace: Option<string>)
    | RecoverObserving(namespace: Option<string>)
    | RecoverCommitting(namespace: Option<string>, run: string)
    | RecoverPublishing(before: Ledger)
    | RecoverVerifying(before: Ledger)
    | RecoverReleasing(before: Ledger)

  /**
   * The durable ledger, Redis, the commands in flight and the one process that may own the ledger.
   * `written`, `grants` and `seen` only record history: markers written by the engine, permissions that were
   * returned, and the control row the running operation last saw confirmed by Redis.
   */
  datatype World = World(
    ledger: Ledger, redis: Redis, net: set<Message>, written: set<(string, Token)>, grants: seq<Grant>,
    pc: Pc, failed: bool, seen: Option<Control>)

  datatype Event =
    | Restart(runId: string)
    | ChangeRole(master: bool)
    | Disaster(markers: map<string, Token>)
    | Forge(markers: map<string, Token>)
    | Deliver(message: Message)
    | Crash
    | Call(req: Request)
    | Open(namespace: Option<string>)
    | StartReattach(namespace: Option<string>)
    | StartRecover(namespace: Option<string>)
    | OperatorHalt
    | Act(fault: Fault)

  // ----- observations -----

  datatype Verdict = Passes | Retry | Stops(reason: Reason)

  /** The gate: the marker must be the current token, or the predecessor named by the pending record. */
  function Observe(r: Redis, c: Control, pending: Option<PendingUpdate>, fault: Fault): Verdict {
    if !fault.NoFault? then if pending.Some? then Retry else Stops(ContinuityUnavailable)
    else
      var marker := Marker(r, KeyOf(c));
      if marker != Some(TokenOf(c)) && !(pending.Some? && marker == Some(pending.value.previous)) then
        Stops(CheckpointMismatch)
      else if !r.master then Stops(RoleChanged)
      else if r.runId != c.runId then Stops(ProcessChanged)
      else Passes
  }

  /** The look after publishing: only the target will do. */
  function Confirm(r: Redis, c: Control, p: PendingUpdate, fault: Fault): Verdict {
    if !fault.NoFault? then Retry
    else if Marker(r, KeyOf(c)) != Some(p.target) then Stops(CheckpointMismatch)
    else if !r.master then Stops(RoleChanged)
    else if r.runId != p.runId then Stops(ProcessChanged)
    else Passes
  }

  /** Redis holds exactly the current token, as the same primary process. */
  predicate Attached(r: Redis, c: Control) {
    Marker(r, KeyOf(c)) == Some(TokenOf(c)) && r.master && r.runId == c.runId
  }

  // ----- steps of a serving process -----

  function GrantOf(req: Request, reply: Result<Reply, Error>): seq<Grant> {
    if reply.Failure? then []
    else if req.Broadcast? then [Ordinary(req.id, req.key, req.attempt)]
    else if req.SolanaBroadcast? && reply.value.Permission? && reply.value.permission.Granted? then
      [Recovery(req.id, req.attempt, reply.value.permission.broadcasts, reply.value.permission.at)]
    else []
  }

  predicate Starting(req: Request) { req.Startup? || req.Opened? }

  /** Answer the caller; a process that fails to start exits. */
  function Finish(w: World, req: Request, reply: Result<Reply, Error>): World {
    w.(pc := if reply.Failure? && Starting(req) then Down else Idle(reply), grants := w.grants + GrantOf(req, reply))
  }

  function Fail(w: World, k: Then, e: Error): World { Finish(w, k.req, Failure(e)) }

  /** Latch the process first; the durable halt is the next action. */
  function Stop(w: World, k: Then, reason: Reason): World { w.(failed := true, pc := Halting(k, reason)) }

  function Proceed(w: World, k: Then): World {
    match k
    case Serve(req) => if req.Health? || req.Opened? then Finish(w, req, Success(Done)) else w.(pc := Transacting(req))
    case Return(req, reply) => Finish(w, req, reply)
  }

  function ActGate(w: World, k: Then, fault: Fault): World {
    if w.failed then Fail(w, k, RecoveryRequired)
    else if !fault.NoFault? || LoadPending(w.ledger).Failure? then Stop(w, k, LedgerUnavailable)
    else if w.ledger.control.halted then Fail(w.(failed := true), k, RecoveryRequired)
    else w.(pc := Observing(k, w.ledger.control, LoadPending(w.ledger).value))
  }

  function ActObserve(w: World, k: Then, c: Control, pending: Option<PendingUpdate>, fault: Fault): World {
    match Observe(w.redis, c, pending, fault)
    case Retry => Fail(w, k, PublicationPending)
    case Stops(reason) => Stop(w, k, reason)
    case Passes => if pending.Some? then w.(pc := Publishing(k, c, pending.value)) else Proceed(w.(seen := Some(c)), k)
  }

  /** Redis runs one command: the marker, and the record of what was written, change together. */
  function Execute(w: World, m: Message): World {
    w.(redis := Apply(w.redis, m), written := if Effective(w.redis, m) then w.written + {(m.key, m.target)}
      else w.written)
  }

  function Send(w: World, m: Message): World { w.(net := w.net + {m}) }

  /** The script answers 1 when the marker is, or has just become, the target. */
  function ActPublish(w: World, k: Then, c: Control, p: PendingUpdate, fault: Fault): World {
    var m := Cas(p.redisKey, p.previous, p.target);
    var sent := Send(w, m);
    if fault.Lost? then Fail(sent, k, PublicationPending)
    else
      var done := Execute(sent, m);
      if fault.Late? then Fail(done, k, PublicationPending)
      else if Marker(done.redis, p.redisKey) == Some(p.target) then done.(pc := Confirming(k, c, p))
      else Stop(done, k, CheckpointMismatch)
  }

  function ActConfirm(w: World, k: Then, c: Control, p: PendingUpdate, fault: Fault): World {
    match Confirm(w.redis, c, p, fault)
    case Retry => Fail(w, k, PublicationPending)
    case Stops(reason) => Stop(w, k, reason)
    case Passes => w.(pc := Acknowledging(k, c, p))
  }

  function ActAcknowledge(w: World, k: Then, c: Control, p: PendingUpdate, fault: Fault): World {
    var a := Acknowledge(w.ledger, p);
    if fault.Lost? || (a.Failure? && (fault.Late? || a.error.Storage?)) then Stop(w, k, LedgerUnavailable)
    else if a.Failure? then Fail(w, k, a.error)
    else if fault.Late? then Stop(w.(ledger := a.value), k, LedgerUnavailable)
    else w.(ledger := a.value, pc := Settling(k, c))
  }

  function ActSettle(w: World, k: Then, c: Control, fault: Fault): World {
    match Observe(w.redis, c, None, fault)
    case Retry => Fail(w, k, PublicationPending)
    case Stops(reason) => Stop(w, k, reason)
    case Passes => Proceed(w.(seen := Some(c)), k)
  }

  /** Storage failures halt every operation but the read-only binding check. */
  function StorageFailure(w: World, req: Request): World {
    if req.ValidateBinding? then Finish(w, req, Failure(Storage)) else Stop(w, Serve(req), LedgerUnavailable)
  }

  function ActTransact(lib: Libraries, w: World, req: Request, fault: Fault): World {
    var o := Transact(lib, w.ledger, req);
    if fault.Lost? then StorageFailure(w, req)
    else if fault.Late? then StorageFailure(w.(ledger := o.ledger), req)
    else if o.advanced then
      w.(ledger := o.ledger, pc := if req.Startup? then Gate(Serve(Opened))
        else MirrorReading(Return(req, o.reply), w.ledger.control))
    else if o.ledger.control.halted && !w.ledger.control.halted then
      Finish(w.(ledger := o.ledger, failed := true), req, Failure(RecoveryRequired))
    else if o.reply == Failure(Storage) then StorageFailure(w, req)
    else Finish(w, req, o.reply)
  }

  function ActMirror(w: World, k: Then, previous: Control, fault: Fault): World {
    var pending := LoadPending(w.ledger);
    if !fault.NoFault? || pending.Failure? || pending.value.None? || pending.value.value.previous != TokenOf(previous)
    then Stop(w, k, LedgerUnavailable)
    else w.(pc := Observing(k, w.ledger.control, pending.value))
  }

  function ActHalt(w: World, k: Then, reason: Reason, fault: Fault): World {
    Fail(if fault.Lost? then w else w.(ledger := Halted(w.ledger, reason)), k, RecoveryRequired)
  }

  // ----- steps of the offline commands -----

  function Exit(w: World): World { w.(pc := Down) }

  function ActSetNx(w: World, next: Pc, fault: Fault): World {
    var m := SetNx(KeyOf(w.ledger.control), TokenOf(w.ledger.control));
    var sent := Send(w, m);
    if fault.Lost? then Exit(sent)
    else if fault.Late? || !Effective(w.redis, m) then Exit(Execute(sent, m))
    else Execute(sent, m).(pc := next)
  }

  function ActRelease(w: World, fault: Fault): World {
    Exit(if fault.Lost? then w else w.(ledger := Unhalted(w.ledger)))
  }

  function ActReattach(w: World, fault: Fault): World
    requires w.pc.ReattachReading? || w.pc.ReattachObserving? || w.pc.ReattachCommitting? || w.pc.ReattachVerifying?
             || w.pc.ReattachFencing?
  {
    match w.pc
    case ReattachReading(namespace) =>
      var pending := LoadPending(w.ledger);
      if !fault.NoFault? || pending.Failure? || w.ledger.control.namespace != namespace
         || !ReattachAllowed(w.ledger.control) then
        Exit(w)
      else w.(pc := ReattachObserving(w.ledger.control, pending.value))
    case ReattachObserving(c, pending) =>
      if !fault.NoFault? || !w.redis.master || Marker(w.redis, KeyOf(c)) != Some(TokenOf(c)) then Exit(w)
      else w.(pc := ReattachCommitting(c, pending, w.redis.runId))
    case ReattachCommitting(c, pending, run) =>
      if fault.Lost? || w.ledger.control != c || LoadPending(w.ledger) != Success(pending) then Exit(w)
      else if fault.Late? then Exit(w.(ledger := TxReattach(w.ledger, run)))
      else w.(ledger := TxReattach(w.ledger, run), pc := ReattachVerifying(c, run))
    case ReattachVerifying(c, run) =>
      if !fault.NoFault? then w.(pc := ReattachFencing(ContinuityUnavailable))
      else if Marker(w.redis, KeyOf(c)) != Some(TokenOf(c)) then w.(pc := ReattachFencing(CheckpointMismatch))
      else if !w.redis.master then w.(pc := ReattachFencing(RoleChanged))
      else if w.redis.runId != run then w.(pc := ReattachFencing(ProcessChanged))
      else Exit(w)
    case ReattachFencing(reason) => Exit(if fault.Lost? then w else w.(ledger := Halted(w.ledger, reason)))
  }

  function ActRecover(w: World, fault: Fault): World
    requires w.pc.RecoverReading? || w.pc.RecoverObserving? || w.pc.RecoverCommitting? || w.pc.RecoverPublishing?
             || w.pc.RecoverVerifying? || w.pc.RecoverReleasing?
  {
    match w.pc
    case RecoverReading(namespace) =>
      if !fault.NoFault? || LoadPending(w.ledger).Failure? || !RecoverAllowed(w.ledger, namespace) then Exit(w)
      else w.(pc := RecoverObserving(namespace))
    case RecoverObserving(namespace) =>
      if !fault.NoFault? || MarkerKey(namespace) in w.redis.markers || !w.redis.master then Exit(w)
      else w.(pc := RecoverCommitting(namespace, w.redis.runId))
    case RecoverCommitting(namespace, run) =>
      var after := w.(ledger := TxRecover(w.ledger, namespace, run));
      if fault.Lost? then Exit(w) else if fault.Late? then Exit(after) else after.(pc := RecoverPublishing(w.ledger))
    case RecoverPublishing(before) => ActSetNx(w, RecoverVerifying(before), fault)
    case RecoverVerifying(before) =>
      if !fault.NoFault? || !Attached(w.redis, w.ledger.control) then Exit(w) else w.(pc := RecoverReleasing(before))
    case RecoverReleasing(before) => ActRelease(w, fault)
  }

  // ----- the machine -----

  function ActStep(lib: Libraries, w: World, fault: Fault): World {
    match w.pc
    case Down => w
    case Idle(_) => w
    case Gate(k) => ActGate(w, k, fault)
    case Observing(k, c, pending) => ActObserve(w, k, c, pending, fault)
    case Publishing(k, c, p) => ActPublish(w, k, c, p, fault)
    case Confirming(k, c, p) => ActConfirm(w, k, c, p, fault)
    case Acknowledging(k, c, p) => ActAcknowledge(w, k, c, p, fault)
    case Settling(k, c) => ActSettle(w, k, c, fault)
    case Transacting(req) => ActTransact(lib, w, req, fault)
    case MirrorReading(k, previous) => ActMirror(w, k, previous, fault)
    case Halting(k, reason) => ActHalt(w, k, reason, fault)
    case InitPublishing => ActSetNx(w, InitReleasing, fault)
    case InitReleasing => ActRelease(w, fault)
    case ReattachReading(_) => ActReattach(w, fault)
    case ReattachObserving(_, _) => ActReattach(w, fault)
    case ReattachCommitting(_, _, _) => ActReattach(w, fault)
    case ReattachVerifying(_, _) => ActReattach(w, fault)
    case ReattachFencing(_) => ActReattach(w, fault)
    case _ => ActRecover(w, fault)
  }

  /** Loss and rollback bring back only markers once written, or another deployment's. */
  predicate PossibleAfterLoss(w: World, markers: map<string, Token>) {
    forall key :: key in markers ==>
      (key, markers[key]) in w.written || markers[key].deployment != w.ledger.control.deployment
  }

  predicate Enabled(w: World, e: Event) {
    match e
    case Disaster(markers) => PossibleAfterLoss(w, markers)
    case Deliver(m) => m in w.net
    case Call(req) => w.pc.Idle? && !Starting(req) && Precheck(req).Success?
    case Open(namespace) => w.pc.Down? && w.ledger.control.namespace == namespace
    case StartReattach(_) => w.pc.Down?
    case StartRecover(_) => w.pc.Down?
    case OperatorHalt => w.pc.Down?
    case Act(_) => !w.pc.Down? && !w.pc.Idle?
    case _ => true
  }

  function Next(lib: Libraries, w: World, e: Event): World {
    match e
    case Restart(runId) => w.(redis := w.redis.(runId := runId))
    case ChangeRole(master) => w.(redis := w.redis.(master := master))
    case Disaster(markers) => w.(redis := w.redis.(markers := markers))
    case Forge(markers) => w.(redis := w.redis.(markers := markers))
    case Deliver(m) => Execute(w, m)
    case Crash => w.(pc := Down, seen := None)
    case Call(req) => w.(pc := Gate(Serve(req)), seen := None)
    case Open(_) => w.(pc := Gate(Serve(Startup)), failed := false, seen := None)
    case StartReattach(namespace) => w.(pc := ReattachReading(namespace))
    case StartRecover(namespace) => w.(pc := RecoverReading(namespace))
    case OperatorHalt => w.(ledger := Halted(w.ledger, OperatorQuarantine))
    case Act(fault) => ActStep(lib, w, fault)
  }

  /** The world just after `initialize` committed its halted ledger. */
  function Initialized(deployment: string, namespace: Option<string>, redis: Redis): World {
    World(InitialLedger(deployment, namespace, redis.runId), redis, {}, {}, [], InitPublishing, false, None)
  }

  ghost predicate StepAt(lib: Libraries, states: seq<World>, events: seq<Event>, i: nat)
    requires i < |events| && |states| == |events| + 1
  {
    Enabled(states[i], events[i]) && states[i + 1] == Next(lib, states[i], events[i])
  }

  /** The states after each of a sequence of enabled events. */
  ghost predicate IsRun(lib: Libraries, states: seq<World>, events: seq<Event>) {
    |states| == |events| + 1 && forall i :: 0 <= i < |events| ==> StepAt(lib, states, events, i)
  }
}
