/**
 * The open-loop arrival schedule of a capacity campaign: one heap item per chain, bounded dispatch, no catch-up
 * queue. Clock readings, cancellation and the client's capacity are arbitrary. Times are real numbers.
 */
module OpenLoop {
  import opened Json

  type Rates = map<string, real>

  predicate PositiveRates(rates: Rates) { forall c :: c in rates ==> rates[c] > 0.0 }

  // ----- the schedule -----

  /** How many chains sort before this one. */
  function Rank(rates: Rates, chain: string): nat { |set c | c in rates && Before(c, chain)| }

  /** A fraction of the chain's period, so that equal rates do not arrive together. */
  function Phase(rates: Rates, chain: string): real
    requires PositiveRates(rates) && chain in rates
  {
    Rank(rates, chain) as real / (|rates| as real * rates[chain])
  }

  function Deadline(rates: Rates, start: real, chain: string, index: nat): real
    requires PositiveRates(rates) && chain in rates
  {
    start + Phase(rates, chain) + index as real / rates[chain]
  }

  /** The number of slots of a chain. */
  function Count(rate: real, duration: real): nat { if rate * duration < 0.0 then 0 else (rate * duration).Floor }

  datatype Entry = Entry(deadline: real, chain: string, index: nat)

  /** Heap order: by deadline, then by chain name, then by index. */
  predicate AtMost(a: Entry, b: Entry) {
    a.deadline < b.deadline
    || (a.deadline == b.deadline && (Before(a.chain, b.chain) || (a.chain == b.chain && a.index <= b.index)))
  }

  lemma AtMostTotal(a: Entry, b: Entry)
    ensures AtMost(a, b) || AtMost(b, a)
  {
    BeforeTotal(a.chain, b.chain);
  }

  lemma AtMostTrans(a: Entry, b: Entry, c: Entry)
    requires AtMost(a, b) && AtMost(b, c)
    ensures AtMost(a, c)
  {
    if Before(a.chain, b.chain) && Before(b.chain, c.chain) { BeforeTransitive(a.chain, b.chain, c.chain); }
  }

  predicate Scheduled(rates: Rates, start: real, e: Entry)
    requires PositiveRates(rates)
  {
    e.chain in rates && e.deadline == Deadline(rates, start, e.chain, e.index)
  }

  /** A chain's deadlines increase with the index. */
  lemma DeadlineIncreases(rates: Rates, start: real, chain: string, i: nat, j: nat)
    requires PositiveRates(rates) && chain in rates && i < j
    ensures Deadline(rates, start, chain, i) < Deadline(rates, start, chain, j)
  {
    var r := rates[chain];
    assert (j - i) as real / r > 0.0;
    assert j as real / r == i as real / r + (j - i) as real / r;
  }

  // ----- the loop -----

  datatype Reason = Dispatched | CampaignAborted | ScheduleLag | ClientCapacity

  datatype Disposition = Disposition(offer: Entry, reason: Reason, now: real)

  /** Nothing later than the tolerance is dispatched, and lag is never claimed without it. */
  predicate ReasonOk(d: Disposition, maxLag: real) {
    (d.reason.Dispatched? || d.reason.ClientCapacity? ==> d.now - d.offer.deadline <= maxLag) &&
    (d.reason.ScheduleLag? ==> d.now - d.offer.deadline > maxLag)
  }

  /** Take the least entry off the heap. */
  method PopLeast(heap: seq<Entry>) returns (least: Entry, rest: seq<Entry>, ghost at: nat)
    requires heap != []
    ensures at < |heap| && least == heap[at] && rest == heap[..at] + heap[at + 1..]
    ensures forall e :: e in heap ==> AtMost(least, e)
  {
    var k := 0;
    least := heap[0];
    var i := 1;
    AtMostTotal(heap[0], heap[0]);
    while i < |heap|
      invariant 0 <= k < i <= |heap| && least == heap[k]
      invariant forall n :: 0 <= n < i ==> AtMost(least, heap[n])
    {
      AtMostTotal(least, heap[i]);
      AtMostTotal(heap[i], heap[i]);
      if !AtMost(least, heap[i]) {
        forall n | 0 <= n < i ensures AtMost(heap[i], heap[n]) { AtMostTrans(heap[i], least, heap[n]); }
        k, least := i, heap[i];
      }
      i := i + 1;
    }
    rest, at := heap[..k] + heap[k + 1..], k;
  }

  /** What becomes of one offer. */
  method Dispose(offer: Entry, maxLag: real) returns (d: Disposition)
    ensures d.offer == offer && ReasonOk(d, maxLag)
  {
    var cancelled: bool := *;
    var now: real := *;
    if cancelled { return Disposition(offer, CampaignAborted, now); }
    if offer.deadline > now {
      now := *;
    }
    if now - offer.deadline > maxLag { return Disposition(offer, ScheduleLag, now); }
    var accepted: bool := *;
    d := Disposition(offer, if accepted then Dispatched else ClientCapacity, now);
  }

  /** Slots left to handle, counting one pop for each heap entry. */
  function Work(rates: Rates, duration: real, heap: seq<Entry>): nat {
    if heap == [] then 0 else Cost(rates, duration, heap[0]) + Work(rates, duration, heap[1..])
  }

  function Cost(rates: Rates, duration: real, e: Entry): nat {
    1 + if e.chain in rates
    && e.index < Count(rates[e.chain], duration) then Count(rates[e.chain], duration) - e.index else 0
  }

  lemma {:induction false} WorkRemove(rates: Rates, duration: real, heap: seq<Entry>, at: nat)
    requires at < |heap|
    ensures Work(rates, duration, heap) ==
              Work(rates, duration, heap[..at] + heap[at + 1..]) + Cost(rates, duration, heap[at])
  {
    if at > 0 {
      WorkRemove(rates, duration, heap[1..], at - 1);
      var rest := heap[..at] + heap[at + 1..];
      assert rest[0] == heap[0] && rest[1..] == heap[1..][..at - 1] + heap[1..][at..];
    } else {
      assert heap[..0] + heap[1..] == heap[1..];
    }
  }

  lemma {:induction false} WorkAppend(rates: Rates, duration: real, heap: seq<Entry>, e: Entry)
    ensures Work(rates, duration, heap + [e]) == Work(rates, duration, heap) + Cost(rates, duration, e)
  {
    if heap == [] {
      assert [e][1..] == [];
    } else {
      assert (heap + [e])[1..] == heap[1..] + [e];
      WorkAppend(rates, duration, heap[1..], e);
    }
  }

  // ----- what the loop keeps -----

  /** At most one heap entry per chain. */
  predicate OnePerChain(heap: seq<Entry>) {
    forall i, j :: 0 <= i < j < |heap| ==> heap[i].chain != heap[j].chain
  }

  ghost predicate HeapOk(rates: Rates, start: real, heap: seq<Entry>)
    requires PositiveRates(rates)
  {
    OnePerChain(heap) && forall e :: e in heap ==> Scheduled(rates, start, e)
  }

  predicate Handled(log: seq<Disposition>, chain: string, index: nat) {
    exists n :: 0 <= n < |log| && log[n].offer.chain == chain && log[n].offer.index == index
  }

  /**
   * Exactly the slots below `done[c]` of each chain have been handled; a chain still in the heap is at its next slot.
   */
  ghost predicate Progress(rates: Rates, duration: real, heap: seq<Entry>, log: seq<Disposition>,
                           done: map<string, nat>) {
    && done.Keys == rates.Keys
    && (forall c, i: nat :: c in rates ==> (Handled(log, c, i) <==> i < done[c]))
    && (forall c :: c in rates ==> done[c] <= Count(rates[c], duration))
    && (forall e :: e in heap ==> e.chain in rates && e.index == done[e.chain])
    && (forall c :: c in rates && done[c] < Count(rates[c], duration) ==> exists e :: e in heap && e.chain == c)
  }

  /** The log is in heap order, and nothing left in the heap belongs before it. */
  ghost predicate InOrder(log: seq<Disposition>, heap: seq<Entry>) {
    && (forall m, n :: 0 <= m < n < |log| ==> AtMost(log[m].offer, log[n].offer) && log[m].offer != log[n].offer)
    && (forall n, e :: 0 <= n < |log| && e in heap ==> AtMost(log[n].offer, e) && log[n].offer != e)
  }

  ghost predicate LoopInv(rates: Rates, duration: real, start: real, heap: seq<Entry>, log: seq<Disposition>,
                          done: map<string, nat>)
    requires PositiveRates(rates)
  {
    && HeapOk(rates, start, heap) && Progress(rates, duration, heap, log, done) && InOrder(log, heap)
    && forall n :: 0 <= n < |log| ==> Scheduled(rates, start, log[n].offer)
  }

  /** What is left after a pop: every other chain's entry, and nothing of the popped chain. */
  lemma RestOf(heap: seq<Entry>, at: nat)
    requires OnePerChain(heap) && at < |heap|
    ensures var rest := heap[..at] + heap[at + 1..];
            OnePerChain(rest) && forall e :: e in rest <==> e in heap && e.chain != heap[at].chain
  {
    var rest := heap[..at] + heap[at + 1..];
    forall i | 0 <= i < |rest| ensures rest[i] == heap[Shift(at, i)] {}
    forall e | e in heap && e.chain != heap[at].chain ensures e in rest {
      var i :| 0 <= i < |heap| && heap[i] == e;
      assert rest[if i < at then i else i - 1] == e;
    }
    forall e | e in rest ensures e in heap && e.chain != heap[at].chain {
      var i :| 0 <= i < |rest| && rest[i] == e;
      assert heap[Shift(at, i)] == e;
    }
  }

  function Shift(at: nat, i: nat): nat { if i < at then i else i + 1 }

  /** A popped entry past its chain's count is simply dropped. */
  lemma DropKeeps(rates: Rates, duration: real, start: real, heap: seq<Entry>, at: nat, log: seq<Disposition>,
                  done: map<string, nat>)
    requires PositiveRates(rates) && LoopInv(rates, duration, start, heap, log, done) && at < |heap|
    requires heap[at].index >= Count(rates[heap[at].chain], duration)
    ensures LoopInv(rates, duration, start, heap[..at] + heap[at + 1..], log, done)
  {
    var rest := heap[..at] + heap[at + 1..];
    RestOf(heap, at);
    forall c | c in rates && done[c] < Count(rates[c], duration) ensures exists e :: e in rest && e.chain == c {
      var e :| e in heap && e.chain == c;
      assert e in rest;
    }
  }

  lemma {:induction false} HandledAppend(log: seq<Disposition>, d: Disposition, chain: string, index: nat)
    ensures Handled(log + [d], chain, index) <==>
              Handled(log, chain, index) || (d.offer.chain == chain && d.offer.index == index)
  {
    var longer := log + [d];
    if Handled(log, chain, index) {
      var n :| 0 <= n < |log| && log[n].offer.chain == chain && log[n].offer.index == index;
      assert longer[n] == log[n];
    }
    assert longer[|log|] == d;
  }

  lemma ProgressStep(rates: Rates, duration: real, heap: seq<Entry>, at: nat, log: seq<Disposition>,
                     done: map<string, nat>, d: Disposition, after: seq<Entry>)
    requires OnePerChain(heap) && at < |heap| && Progress(rates, duration, heap, log, done) && d.offer == heap[at]
    requires heap[at].index < Count(rates[heap[at].chain], duration)
    requires forall e :: e in after ==>
               (e in heap && e.chain != heap[at].chain) || (e.chain == heap[at].chain && e.index == heap[at].index + 1)
    requires forall e :: e in heap && e.chain != heap[at].chain ==> e in after
    requires heap[at].index + 1 < Count(rates[heap[at].chain], duration) ==>
               exists e :: e in after && e.chain == heap[at].chain
    ensures Progress(rates, duration, after, log + [d], done[heap[at].chain := heap[at].index + 1])
  {
    var c0 := heap[at].chain;
    var later := done[c0 := heap[at].index + 1];
    forall c, i: nat | c in rates ensures Handled(log + [d], c, i) <==> i < later[c] {
      HandledAppend(log, d, c, i);
    }
    forall c | c in rates && later[c] < Count(rates[c], duration) ensures exists e :: e in after && e.chain == c {
      if c != c0 {
        var e :| e in heap && e.chain == c;
        assert e in after;
      }
    }
  }

  lemma OrderStep(log: seq<Disposition>, heap: seq<Entry>, at: nat, d: Disposition, after: seq<Entry>)
    requires at < |heap| && InOrder(log, heap) && d.offer == heap[at] && forall e :: e in heap ==> AtMost(heap[at], e)
    requires forall e :: e in after ==>
               (e in heap && e.chain != heap[at].chain) || (e.chain == heap[at].chain && e.deadline > heap[at].deadline)
    ensures InOrder(log + [d], after)
  {
    var longer := log + [d];
    assert heap[at] in heap;
    forall n, e | 0 <= n < |longer| && e in after ensures AtMost(longer[n].offer, e) && longer[n].offer != e {
      if e !in heap {
        assert AtMost(heap[at], e);
        if n < |log| { assert AtMost(log[n].offer, heap[at]); AtMostTrans(log[n].offer, heap[at], e); }
      }
    }
  }

  /** Handling the least entry, and pushing the chain's next slot if it has one, keeps everything. */
  lemma HandleKeeps(rates: Rates, duration: real, start: real, heap: seq<Entry>, at: nat, log: seq<Disposition>,
                    done: map<string, nat>, d: Disposition, after: seq<Entry>)
    requires PositiveRates(rates) && LoopInv(rates, duration, start, heap, log, done) && at < |heap|
             && d.offer == heap[at]
    requires heap[at].index < Count(rates[heap[at].chain], duration) && forall e :: e in heap ==> AtMost(heap[at], e)
    requires var rest, c, i := heap[..at] + heap[at + 1..], heap[at].chain, heap[at].index + 1;
             after == if i < Count(rates[c], duration) then rest + [Entry(Deadline(rates, start, c, i), c, i)] else rest
    ensures LoopInv(rates, duration, start, after, log + [d], done[heap[at].chain := heap[at].index + 1])
  {
    var rest, c, i := heap[..at] + heap[at + 1..], heap[at].chain, heap[at].index + 1;
    RestOf(heap, at);
    assert Scheduled(rates, start, heap[at]);
    DeadlineIncreases(rates, start, c, heap[at].index, i);
    var next := Entry(Deadline(rates, start, c, i), c, i);
    assert forall e :: e in after <==> e in rest || (i < Count(rates[c], duration) && e == next);
    if i < Count(rates[c], duration) { assert next in after; }
    hide Deadline, AtMost;
    ProgressStep(rates, duration, heap, at, log, done, d, after);
    OrderStep(log, heap, at, d, after);
  }

  /** One heap entry per chain, each at its first slot. */
  method InitialHeap(rates: Rates, duration: real, start: real) returns (heap: seq<Entry>)
    requires PositiveRates(rates)
    ensures LoopInv(rates, duration, start, heap, [], map c | c in rates :: 0) && |heap| == |rates|
  {
    heap := [];
    var left := rates.Keys;
    while left != {}
      invariant left <= rates.Keys && |heap| + |left| == |rates|
      invariant OnePerChain(heap)
      invariant forall e :: e in heap ==>
                  e.chain in rates && e.chain !in left && e.index == 0 && Scheduled(rates, start, e)
      invariant forall c :: c in rates && c !in left ==> exists e :: e in heap && e.chain == c
      decreases |left|
    {
      var c :| c in left;
      var e := Entry(start + Phase(rates, c), c, 0);
      assert 0 as real / rates[c] == 0.0;
      ghost var before, gone := heap, left;
      heap, left := heap + [e], left - {c};
      assert e in heap;
      forall x | x in rates && x !in left ensures exists y :: y in heap && y.chain == x {
        if x != c {
          var y :| y in before && y.chain == x;
          assert y in heap;
        }
      }
    }
  }

  /**
   * The schedule: every slot of every chain is disposed of exactly once, for one reason, in order of deadline
   * and, within a chain, of index; the heap never holds more than one entry per chain.
   */
  method Schedule(rates: Rates, duration: real, start: real, maxLag: real) returns (log: seq<Disposition>, peak: nat)
    requires PositiveRates(rates)
    ensures forall c, i: nat :: c in rates ==> (Handled(log, c, i) <==> i < Count(rates[c], duration))
    ensures forall n :: 0 <= n < |log| ==> Scheduled(rates, start, log[n].offer) && ReasonOk(log[n], maxLag)
    ensures forall m, n :: 0 <= m < n < |log| ==>
              AtMost(log[m].offer, log[n].offer)
              && (log[m].offer.chain == log[n].offer.chain ==> log[m].offer.index < log[n].offer.index)
    ensures peak <= |rates|
  {
    hide LoopInv, ReasonOk, Work, AtMost, Scheduled, Handled, Count;
    var heap := InitialHeap(rates, duration, start);
    log, peak := [], |heap|;
    ghost var done: map<string, nat> := map c | c in rates :: 0;
    while heap != []
      invariant LoopInv(rates, duration, start, heap, log, done)
      invariant forall n :: 0 <= n < |log| ==> ReasonOk(log[n], maxLag)
      invariant |heap| <= |rates| && peak <= |rates|
      decreases Work(rates, duration, heap)
    {
      heap, log, done := Turn(rates, duration, start, maxLag, heap, log, done);
      if |heap| > peak { peak := |heap|; }
    }
    LoopDone(rates, duration, start, log, done);
  }

  /** One turn: pop the least entry, drop it or dispose of it, and push the chain's next slot if it has one. */
  method Turn(rates: Rates, duration: real, start: real, maxLag: real, heap: seq<Entry>, log: seq<Disposition>,
              ghost done: map<string, nat>)
    returns (after: seq<Entry>, longer: seq<Disposition>, ghost later: map<string, nat>)
    requires PositiveRates(rates) && heap != [] && LoopInv(rates, duration, start, heap, log, done)
    ensures LoopInv(rates, duration, start, after, longer, later)
    ensures longer == log || (|longer| == |log| + 1 && longer[..|log|] == log && ReasonOk(longer[|log|], maxLag))
    ensures |after| <= |heap| && Work(rates, duration, after) < Work(rates, duration, heap)
  {
    hide LoopInv, AtMost, Deadline, ReasonOk, OnePerChain, Work, Cost, Scheduled, Count;
    var least, rest, at := PopLeast(heap);
    WorkRemove(rates, duration, heap, at);
    HeapEntry(rates, duration, start, heap, at, log, done);
    if least.index >= Count(rates[least.chain], duration) {
      CostPositive(rates, duration, least);
      DropKeeps(rates, duration, start, heap, at, log, done);
      return rest, log, done;
    }
    var d := Dispose(least, maxLag);
    var next := Entry(Deadline(rates, start, least.chain, least.index + 1), least.chain, least.index + 1);
    CostNext(rates, duration, least, next);
    WorkAppend(rates, duration, rest, next);
    after := if next.index < Count(rates[least.chain], duration) then rest + [next] else rest;
    HandleKeeps(rates, duration, start, heap, at, log, done, d, after);
    longer, later := log + [d], done[least.chain := next.index];
  }

  lemma CostPositive(rates: Rates, duration: real, e: Entry)
    ensures Cost(rates, duration, e) >= 1
  {}

  lemma CostNext(rates: Rates, duration: real, e: Entry, next: Entry)
    requires e.chain in rates && e.index < Count(rates[e.chain], duration) && next.chain == e.chain
             && next.index == e.index + 1
    ensures 1 <= Cost(rates, duration, next) < Cost(rates, duration, e)
  {
    hide Count;
  }

  lemma HeapEntry(rates: Rates, duration: real, start: real, heap: seq<Entry>, at: nat, log: seq<Disposition>,
                  done: map<string, nat>)
    requires PositiveRates(rates) && LoopInv(rates, duration, start, heap, log, done) && at < |heap|
    ensures heap[at].chain in rates
  {}

  lemma LoopDone(rates: Rates, duration: real, start: real, log: seq<Disposition>, done: map<string, nat>)
    requires PositiveRates(rates) && LoopInv(rates, duration, start, [], log, done)
    ensures forall c, i: nat :: c in rates ==> (Handled(log, c, i) <==> i < Count(rates[c], duration))
    ensures forall n :: 0 <= n < |log| ==> Scheduled(rates, start, log[n].offer)
    ensures forall m, n :: 0 <= m < n < |log| ==>
              AtMost(log[m].offer, log[n].offer)
              && (log[m].offer.chain == log[n].offer.chain ==> log[m].offer.index < log[n].offer.index)
  {
    forall m, n | 0 <= m < n < |log| && log[m].offer.chain == log[n].offer.chain
      ensures log[m].offer.index < log[n].offer.index
    {
      var a, b := log[m].offer, log[n].offer;
      BeforeTotal(a.chain, b.chain);
      assert Scheduled(rates, start, a) && Scheduled(rates, start, b);
      if a.index > b.index { DeadlineIncreases(rates, start, a.chain, b.index, a.index); }
    }
  }

  // ----- phases -----

  lemma RankBelow(rates: Rates, chain: string)
    requires chain in rates
    ensures Rank(rates, chain) < |rates|
  {
    var below := set c | c in rates && Before(c, chain);
    BeforeTotal(chain, chain);
    assert below < rates.Keys;
    ProperSubsetSmaller(below, rates.Keys);
    assert |rates.Keys| == |rates|;
  }

  lemma ProperSubsetSmaller(a: set<string>, b: set<string>)
    requires a < b
    ensures |a| < |b|
  {
    var x :| x in b && x !in a;
    assert a <= b - {x};
    SubsetAtMost(a, b - {x});
  }

  lemma SubsetAtMost(a: set<string>, b: set<string>)
    requires a <= b
    ensures |a| <= |b|
  {
    assert b == a + (b - a);
  }

  lemma RankInjective(rates: Rates, a: string, b: string)
    requires a in rates && b in rates && a != b
    ensures Rank(rates, a) != Rank(rates, b)
  {
    BeforeTotal(a, b);
    if Before(a, b) { RankIncreases(rates, a, b); } else { RankIncreases(rates, b, a); }
  }

  lemma RankIncreases(rates: Rates, a: string, b: string)
    requires a in rates && Before(a, b)
    ensures Rank(rates, a) < Rank(rates, b)
  {
    var x, y := set c | c in rates && Before(c, a), set c | c in rates && Before(c, b);
    BeforeTotal(a, a);
    forall c | c in x ensures c in y { BeforeTransitive(c, a, b); }
    assert a in y && a !in x;
    ProperSubsetSmaller(x, y);
  }

  /** Two chains of the same rate never have slots due at the same instant. */
  lemma EqualRatesNeverCoincide(rates: Rates, start: real, a: string, i: nat, b: string, j: nat)
    requires PositiveRates(rates) && a in rates && b in rates && a != b && rates[a] == rates[b]
    ensures Deadline(rates, start, a, i) != Deadline(rates, start, b, j)
  {
    RankBelow(rates, a);
    RankBelow(rates, b);
    RankInjective(rates, a, b);
    if Deadline(rates, start, a, i) == Deadline(rates, start, b, j) {
      PhasesApart(Rank(rates, a), Rank(rates, b), |rates|, rates[a], i, j);
    }
  }

  /** x/(n r) + i/r = y/(n r) + j/r forces x + n i = y + n j, so x = y when both are below n. */
  lemma PhasesApart(x: nat, y: nat, n: nat, r: real, i: nat, j: nat)
    requires x < n && y < n && x != y && r > 0.0
    ensures x as real / (n as real * r) + i as real / r != y as real / (n as real * r) + j as real / r
  {
    Combine(x, i, n, r);
    Combine(y, j, n, r);
    ResiduesApart(x, y, n, i, j);
    if (x + n * i) as real / (n as real * r) == (y + n * j) as real / (n as real * r) {
      SameFraction((x + n * i) as real, (y + n * j) as real, n as real * r);
    }
  }

  lemma Combine(x: nat, i: nat, n: nat, r: real)
    requires n > 0 && r > 0.0
    ensures x as real / (n as real * r) + i as real / r == (x + n * i) as real / (n as real * r)
  {
    var nr := n as real * r;
    ScaleFraction(i as real, n as real, r);
    assert (x + n * i) as real == x as real + i as real * n as real;
    AddFractions(x as real, i as real * n as real, nr);
  }

  lemma AddFractions(a: real, b: real, n: real)
    requires n > 0.0
    ensures a / n + b / n == (a + b) / n
  {}

  lemma ResiduesApart(x: nat, y: nat, n: nat, i: nat, j: nat)
    requires x < n && y < n && x != y
    ensures x + n * i != y + n * j
  {
    if i < j { MultiplesApart(n, i, j); }
    if j < i { MultiplesApart(n, j, i); }
  }

  lemma {:induction false} MultiplesApart(n: nat, i: nat, j: nat)
    requires i < j
    ensures n * i + n <= n * j
    decreases j
  {
    assert n * j == n * (j - 1) + n;
    if i < j - 1 { MultiplesApart(n, i, j - 1); }
  }

  lemma ScaleFraction(a: real, n: real, r: real)
    requires n > 0.0 && r > 0.0
    ensures a / r == (a * n) / (n * r)
  {
    var q := a / r;
    assert q * r == a;
    assert q * (n * r) == a * n;
  }

  lemma SameFraction(a: real, b: real, n: real)
    requires n > 0.0 && a / n == b / n
    ensures a == b
  {
    assert (a / n) * n == a && (b / n) * n == b;
  }
}
