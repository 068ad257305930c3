/**
 * Registration of owned operations and the shutdown barrier. A reader-writer lock over a flag: operations
 * register by taking a read guard that moves into their spawned task, and shutdown takes the write side.
 * Any number of callers, cancellations, tasks and drains interleave, one atomic step at a time.
 */
module Shutdown {

  const MAX_CONCURRENT_ADMISSIONS := 64

  /** Where one operation stands. `permit` says whether it carries an admission permit. */
  datatype Phase =
    | Calling(permit: bool)
    | Guarded(permit: bool)
    | Running(permit: bool, awaited: bool)
    | Busy
    | Cancelled
    | Finished

  /** Where one drain stands; a closing drain sets the flag before it lets go. */
  datatype Drain = Waiting(closing: bool) | Holding(closing: bool) | Returned(closing: bool)

  datatype System = System(closed: bool, ops: map<nat, Phase>, drains: map<nat, Drain>, available: nat,
                           commits: seq<nat>)

  datatype Step =
    | Arrive(op: nat, admission: bool)
    | TryRead(op: nat, granted: bool)
    | CheckFlag(op: nat)
    | CommitLedger(op: nat)
    | End(op: nat)
    | CancelCaller(op: nat)
    | RequestWrite(drain: nat, closing: bool)
    | AcquireWrite(drain: nat)
    | ReleaseWrite(drain: nat)

  predicate Guards(p: Phase) { p.Guarded? || p.Running? }
  predicate Permits(p: Phase) { (p.Calling? || p.Guarded? || p.Running?) && p.permit }

  /** Somebody holds the write side. */
  predicate WriteHeld(s: System) { exists d :: d in s.drains && s.drains[d].Holding? }
  predicate ReadHeld(s: System) { exists op :: op in s.ops && Guards(s.ops[op]) }

  predicate CanStep(s: System, t: Step) {
    match t
    case Arrive(op, _) => op !in s.ops
    case TryRead(op, granted) =>
      op in s.ops && s.ops[op].Calling? && (granted ==> !WriteHeld(s)) && (!granted ==> s.drains != map[])
    case CheckFlag(op) => op in s.ops && s.ops[op].Guarded?
    case CommitLedger(op) => op in s.ops && s.ops[op].Running?
    case End(op) => op in s.ops && s.ops[op].Running?
    case CancelCaller(op) =>
      op in s.ops && (s.ops[op].Calling? || s.ops[op].Guarded? || (s.ops[op].Running? && s.ops[op].awaited))
    case RequestWrite(d, _) => d !in s.drains
    case AcquireWrite(d) => d in s.drains && s.drains[d].Waiting? && !ReadHeld(s) && !WriteHeld(s)
    case ReleaseWrite(d) => d in s.drains && s.drains[d].Holding?
  }

  /** Give an operation its new phase, and return the permit of one that gives it up. */
  function Move(s: System, op: nat, p: Phase): System
    requires op in s.ops
  {
    s.(ops := s.ops[op := p], available := s.available + if Permits(s.ops[op]) && !Permits(p) then 1 else 0)
  }

  function Do(s: System, t: Step): System
    requires CanStep(s, t)
  {
    match t
    case Arrive(op, admission) =>
      if !admission then s.(ops := s.ops[op := Calling(false)])
      else if s.available == 0 then s.(ops := s.ops[op := Busy])
      else s.(ops := s.ops[op := Calling(true)], available := s.available - 1)
    case TryRead(op, granted) => Move(s, op, if granted then Guarded(s.ops[op].permit) else Busy)
    case CheckFlag(op) => Move(s, op, if s.closed then Busy else Running(s.ops[op].permit, true))
    case CommitLedger(op) => s.(commits := s.commits + [op])
    case End(op) => Move(s, op, Finished)
    case CancelCaller(op) => Move(s, op, if s.ops[op].Running? then s.ops[op].(awaited := false) else Cancelled)
    case RequestWrite(d, closing) => s.(drains := s.drains[d := Waiting(closing)])
    case AcquireWrite(d) => s.(drains := s.drains[d := Holding(s.drains[d].closing)])
    case ReleaseWrite(d) =>
      s.(drains := s.drains[d := Returned(s.drains[d].closing)], closed := s.closed || s.drains[d].closing)
  }

  const INITIAL := System(false, map[], map[], MAX_CONCURRENT_ADMISSIONS, [])

  function PermitHolders(s: System): set<nat> { set op | op in s.ops && Permits(s.ops[op]) }

  /**
   * The lock excludes readers and writers; a returned close means closed; once closed nothing runs; permits are
   * conserved.
   */
  predicate Inv(s: System) {
    && !(WriteHeld(s) && ReadHeld(s))
    && (forall d :: d in s.drains && s.drains[d].Returned? && s.drains[d].closing ==> s.closed)
    && (s.closed ==> forall op :: op in s.ops ==> !s.ops[op].Running?)
    && |PermitHolders(s)| + s.available == MAX_CONCURRENT_ADMISSIONS
  }

  /** Every operation that was told to come in and run. */
  predicate IsRun(states: seq<System>, steps: seq<Step>) {
    |states| == |steps| + 1 && states[0] == INITIAL &&
    forall i :: 0 <= i < |steps| ==> CanStep(states[i], steps[i]) && states[i + 1] == Do(states[i], steps[i])
  }

  lemma MovePermits(s: System, op: nat, p: Phase)
    requires op in s.ops && (Permits(p) ==> Permits(s.ops[op]))
    ensures |PermitHolders(Move(s, op, p))| + Move(s, op, p).available == |PermitHolders(s)| + s.available
  {
    var before, after := PermitHolders(s), PermitHolders(Move(s, op, p));
    if Permits(s.ops[op]) && !Permits(p) {
      assert before == after + {op} && op !in after;
    } else {
      assert before == after;
    }
  }

  lemma ArrivePermits(s: System, op: nat, admission: bool)
    requires CanStep(s, Arrive(op, admission))
    ensures |PermitHolders(Do(s, Arrive(op, admission)))| + Do(s, Arrive(op, admission)).available ==
              |PermitHolders(s)| + s.available
  {
    var t := Do(s, Arrive(op, admission));
    assert Permits(Calling(true)) && !Permits(Calling(false)) && !Permits(Busy);
    hide Permits, Guards;
    assert forall x :: x in s.ops ==> t.ops[x] == s.ops[x];
    if admission && s.available > 0 {
      assert PermitHolders(t) == PermitHolders(s) + {op};
    } else {
      assert PermitHolders(t) == PermitHolders(s);
    }
  }

  lemma StepPermits(s: System, t: Step)
    requires CanStep(s, t)
    ensures |PermitHolders(Do(s, t))| + Do(s, t).available == |PermitHolders(s)| + s.available
  {
    match t
    case Arrive(op, admission) => ArrivePermits(s, op, admission);
    case TryRead(op, granted) => MovePermits(s, op, if granted then Guarded(s.ops[op].permit) else Busy);
    case CheckFlag(op) => MovePermits(s, op, if s.closed then Busy else Running(s.ops[op].permit, true));
    case End(op) => MovePermits(s, op, Finished);
    case CancelCaller(op) => MovePermits(s, op, if s.ops[op].Running? then s.ops[op].(awaited := false) else Cancelled);
    case _ => assert PermitHolders(Do(s, t)) == PermitHolders(s);
  }

  lemma StepLock(s: System, t: Step)
    requires Inv(s) && CanStep(s, t)
    ensures !(WriteHeld(Do(s, t)) && ReadHeld(Do(s, t)))
  {
    var b := Do(s, t);
    assert t.AcquireWrite? || (WriteHeld(b) ==> WriteHeld(s));
    assert (t.TryRead? && t.granted) || (ReadHeld(b) ==> ReadHeld(s));
  }

  lemma StepInv(s: System, t: Step)
    requires Inv(s) && CanStep(s, t)
    ensures Inv(Do(s, t))
  {
    StepLock(s, t);
    StepPermits(s, t);
    var b := Do(s, t);
    if t.ReleaseWrite? {
      forall op | op in b.ops && b.closed ensures !b.ops[op].Running? {
        assert !ReadHeld(s);
        assert !Guards(s.ops[op]);
      }
    }
  }

  lemma {:induction false} RunInv(states: seq<System>, steps: seq<Step>, i: nat)
    requires IsRun(states, steps) && i < |states|
    ensures Inv(states[i])
  {
    if i > 0 {
      RunInv(states, steps, i - 1);
      StepInv(states[i - 1], steps[i - 1]);
    } else {
      assert PermitHolders(INITIAL) == {};
    }
  }

  lemma {:induction false} StaysClosed(states: seq<System>, steps: seq<Step>, i: nat, j: nat)
    requires IsRun(states, steps) && i <= j < |states| && states[i].closed
    ensures states[j].closed && states[j].commits == states[i].commits
    decreases j
  {
    if i < j {
      StaysClosed(states, steps, i, j - 1);
      RunInv(states, steps, j - 1);
    }
  }

  /**
   * For every interleaving: once `close_and_drain` has returned, nothing owned is running, no ledger commit follows,
   * and every operation that still tries to register is told Busy.
   */
  lemma ShutdownBarrier(states: seq<System>, steps: seq<Step>, i: nat, j: nat, d: nat)
    requires IsRun(states, steps) && i <= j < |states|
    requires d in states[i].drains && states[i].drains[d] == Returned(true)
    ensures forall op :: op in states[j].ops ==> !states[j].ops[op].Running?
    ensures states[j].commits == states[i].commits
    ensures j < |steps| && steps[j].CheckFlag? ==> states[j + 1].ops[steps[j].op] == Busy
  {
    RunInv(states, steps, i);
    StaysClosed(states, steps, i, j);
    RunInv(states, steps, j);
  }

  /** How far an operation that has left its caller's hands may have come. */
  predicate Later(p: Phase, q: Phase) {
    match p
    case Calling(_) => true
    case Guarded(permit) => q == p || (q.Running? && q.permit == permit) || q.Busy? || q.Cancelled? || q.Finished?
    case Running(permit, _) => (q.Running? && q.permit == permit) || q.Finished?
    case _ => q == p
  }

  lemma StepLater(s: System, t: Step, op: nat)
    requires CanStep(s, t) && op in s.ops
    ensures op in Do(s, t).ops && (s.ops[op].Calling? || Later(s.ops[op], Do(s, t).ops[op]))
  {
    hide WriteHeld, ReadHeld, Permits;
  }

  /** Only its own `End` stops a running operation, and nothing starts an ended one again. */
  lemma StepRuns(s: System, t: Step, op: nat)
    requires CanStep(s, t) && op in s.ops && (s.ops[op].Running? || s.ops[op].Finished?)
    ensures op in Do(s, t).ops && (Do(s, t).ops[op].Running? <==> s.ops[op].Running? && t != End(op))
  {
    hide WriteHeld, ReadHeld, Permits;
  }

  lemma {:induction false} RunLater(states: seq<System>, steps: seq<Step>, i: nat, j: nat, op: nat)
    requires IsRun(states, steps) && i <= j < |states| && op in states[i].ops
    ensures op in states[j].ops && Later(states[i].ops[op], states[j].ops[op])
    decreases j
  {
    hide CanStep, Do;
    if i < j {
      RunLater(states, steps, i, j - 1, op);
      StepLater(states[j - 1], steps[j - 1], op);
    }
  }

  /**
   * For every interleaving: by the time a drain gets the lock, every operation registered before that has ended, and
   * one that ran has finished.
   */
  lemma {:induction false} DrainWaitsForAll(states: seq<System>, steps: seq<Step>, i: nat, j: nat, d: nat, op: nat)
    requires IsRun(states, steps) && i <= j < |states| && op in states[i].ops && Guards(states[i].ops[op])
    requires d !in states[i].drains || states[i].drains[d].Waiting?
    requires d in states[j].drains && !states[j].drains[d].Waiting?
    ensures op in states[j].ops && !Guards(states[j].ops[op])
    ensures states[i].ops[op].Running? ==> states[j].ops[op].Finished?
    decreases j
  {
    var before := states[j - 1];
    assert CanStep(before, steps[j - 1]) && states[j] == Do(before, steps[j - 1]);
    RunLater(states, steps, i, j - 1, op);
    if d in before.drains && !before.drains[d].Waiting? {
      DrainWaitsForAll(states, steps, i, j - 1, d, op);
    } else {
      assert steps[j - 1] == AcquireWrite(d) && !ReadHeld(before);
    }
  }

  /**
   * An admission permit is held exactly until its operation ends: while no `End` of it happens it runs on with the
   * permit, whatever happens to its caller, and afterwards the permit is back. At most 64 are ever held.
   */
  lemma {:induction false} PermitHeldUntilEnd(states: seq<System>, steps: seq<Step>, i: nat, j: nat, op: nat)
    requires IsRun(states, steps) && i <= j < |states|
    requires op in states[i].ops && states[i].ops[op].Running? && states[i].ops[op].permit
    ensures op in PermitHolders(states[j]) <==> End(op) !in steps[i..j]
    ensures op in states[j].ops && (states[j].ops[op].Running? <==> End(op) !in steps[i..j])
    ensures |PermitHolders(states[j])| + states[j].available == MAX_CONCURRENT_ADMISSIONS
    decreases j
  {
    hide CanStep, Do;
    RunInv(states, steps, j);
    RunLater(states, steps, i, j, op);
    if i < j {
      assert steps[i..j] == steps[i..j - 1] + [steps[j - 1]];
      RunLater(states, steps, i, j - 1, op);
      StepRuns(states[j - 1], steps[j - 1], op);
      PermitHeldUntilEnd(states, steps, i, j - 1, op);
    }
  }
}
