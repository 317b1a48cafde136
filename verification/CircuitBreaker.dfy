/**
 The in-memory circuit breaker in front of Redis
 (backend/app/core/cache.py, _CacheCircuitBreaker).
 */
module CircuitBreaker {

  datatype Phase = Closed | Open | HalfOpen

  datatype Breaker = Breaker(failures: nat, lastFailure: int, phase: Phase)

  const FRESH := Breaker(0, 0, Closed)

  function Succeeded(b: Breaker): Breaker {
    b.(failures := 0, phase := Closed)
  }

  function Failed(b: Breaker, threshold: int, now: int): Breaker {
    Breaker(b.failures + 1, now, if b.failures + 1 >= threshold && !b.phase.Open? then Open else b.phase)
  }

  predicate Admits(b: Breaker, recovery: int, now: int) {
    !b.phase.Open? || now - b.lastFailure > recovery
  }

  function Asked(b: Breaker, recovery: int, now: int): Breaker {
    if b.phase.Open? && Admits(b, recovery, now) then b.(phase := HalfOpen) else b
  }

  /** Closed exactly when the failures counted so far are below the threshold. */
  predicate Valid(b: Breaker, threshold: int) {
    b.phase.Closed? <==> b.failures < threshold
  }

  class CacheCircuitBreaker {
    const threshold: int
    const recovery: int
    var failures: nat
    var lastFailure: int
    var phase: Phase

    function View(): Breaker
      reads this
    {
      Breaker(failures, lastFailure, phase)
    }

    constructor (threshold: int, recovery: int)
      ensures this.threshold == threshold && this.recovery == recovery && View() == FRESH
      ensures Valid(View(), threshold) <==> threshold >= 1
    {
      this.threshold, this.recovery := threshold, recovery;
      failures, lastFailure, phase := 0, 0, Closed;
    }

    method RecordSuccess()
      modifies this
      ensures View() == Succeeded(old(View()))
      ensures failures == 0 && phase == Closed && lastFailure == old(lastFailure)
      ensures threshold >= 1 ==> Valid(View(), threshold)
    {
      failures := 0;
      phase := Closed;
    }

    method RecordFailure(now: int)
      modifies this
      ensures View() == Failed(old(View()), threshold, now)
      ensures failures == old(failures) + 1 && lastFailure == now
      ensures phase == if failures >= threshold then Open else old(phase)
      ensures old(Valid(View(), threshold)) ==> Valid(View(), threshold)
      ensures old(Valid(View(), threshold)) && !old(phase).Closed? ==> phase.Open?
    {
      failures := failures + 1;
      lastFailure := now;
      if failures >= threshold && phase != Open {
        phase := Open;
      }
    }

    method CanExecute(now: int) returns (ok: bool)
      modifies this
      ensures ok == Admits(old(View()), recovery, now) && View() == Asked(old(View()), recovery, now)
      ensures ok <==> old(phase) == Closed || old(phase) == HalfOpen || now - old(lastFailure) > recovery
      ensures phase == (if ok && old(phase) == Open then HalfOpen else old(phase)) && failures == old(failures) && lastFailure == old(lastFailure)
      ensures old(Valid(View(), threshold)) ==> Valid(View(), threshold)
    {
      if phase == Closed {
        return true;
      }
      if phase == Open {
        if now - lastFailure > recovery {
          phase := HalfOpen;
          return true;
        }
        return false;
      }
      return true;
    }
  }

  // ---------------------------------------------------------------------------------------
  // Callers one after another, a Redis that keeps failing
  // ---------------------------------------------------------------------------------------

  /** When the caller asks, and when its Redis call, if admitted, has failed. */
  datatype Call = Call(asks: int, fails: int)

  predicate Sequential(calls: seq<Call>) {
    && (forall i | 0 <= i < |calls| :: calls[i].asks <= calls[i].fails)
    && (forall i | 0 <= i < |calls| - 1 :: calls[i].fails <= calls[i + 1].asks)
  }

  function After(b: Breaker, threshold: int, recovery: int, c: Call): Breaker {
    if Admits(b, recovery, c.asks) then Failed(Asked(b, recovery, c.asks), threshold, c.fails) else b
  }

  function Attempts(b: Breaker, threshold: int, recovery: int, calls: seq<Call>): nat
    decreases |calls|
  {
    if calls == [] then 0
    else (if Admits(b, recovery, calls[0].asks) then 1 else 0) + Attempts(After(b, threshold, recovery, calls[0]), threshold, recovery, calls[1..])
  }

  lemma SequentialTail(calls: seq<Call>)
    requires Sequential(calls) && calls != []
    ensures Sequential(calls[1..])
    ensures calls[1..] != [] ==> calls[0].fails <= calls[1..][0].asks
  {
  }

  lemma {:induction false} LaterCalls(calls: seq<Call>)
    requires Sequential(calls) && calls != []
    ensures calls[0].asks <= calls[|calls| - 1].asks
    ensures |calls| > 1 ==> calls[0].fails <= calls[|calls| - 1].asks
  {
    if |calls| > 1 {
      SequentialTail(calls);
      LaterCalls(calls[1..]);
    }
  }

  function Periods(n: nat, recovery: nat): nat {
    if n == 0 then 0 else Periods(n - 1, recovery) + recovery
  }

  lemma {:induction false} PeriodsIsProduct(n: nat, recovery: nat)
    ensures Periods(n, recovery) == n * recovery
  {
    if n > 0 {
      PeriodsIsProduct(n - 1, recovery);
      assert n * recovery == (n - 1) * recovery + recovery;
    }
  }

  lemma {:induction false} OpenPeriods(b: Breaker, threshold: int, recovery: nat, calls: seq<Call>)
    requires b.phase.Open? && b.failures >= threshold && Sequential(calls)
    ensures var n := Attempts(b, threshold, recovery, calls);
      n > 0 ==> Periods(n, recovery) < calls[|calls| - 1].asks - b.lastFailure
    decreases |calls|
  {
    if calls != [] {
      SequentialTail(calls);
      LaterCalls(calls);
      OpenPeriods(After(b, threshold, recovery, calls[0]), threshold, recovery, calls[1..]);
    }
  }

  /** From an open breaker every further attempt costs one whole recovery period. */
  lemma OpenBound(b: Breaker, threshold: int, recovery: nat, calls: seq<Call>)
    requires b.phase.Open? && b.failures >= threshold && Sequential(calls)
    ensures var n := Attempts(b, threshold, recovery, calls);
      n > 0 ==> n * recovery < calls[|calls| - 1].asks - b.lastFailure
  {
    OpenPeriods(b, threshold, recovery, calls);
    PeriodsIsProduct(Attempts(b, threshold, recovery, calls), recovery);
  }

  /** A closed breaker spends what is left of its threshold first. */
  lemma {:induction false} ClosedBound(b: Breaker, threshold: int, recovery: nat, calls: seq<Call>)
    requires Valid(b, threshold) && b.phase.Closed? && Sequential(calls) && calls != []
    ensures (Attempts(b, threshold, recovery, calls) - (threshold - b.failures)) * recovery <= calls[|calls| - 1].asks - calls[0].asks
    decreases |calls|
  {
    SequentialTail(calls);
    LaterCalls(calls);
    var b' := After(b, threshold, recovery, calls[0]);
    var m := Attempts(b', threshold, recovery, calls[1..]);
    if |calls| == 1 {
      assert m == 0;
      NonPositive(1 - (threshold - b.failures), recovery);
    } else if b'.phase.Open? {
      OpenBound(b', threshold, recovery, calls[1..]);
      assert threshold - b.failures == 1;
    } else {
      ClosedBound(b', threshold, recovery, calls[1..]);
    }
  }

  lemma NonPositive(x: int, r: nat)
    requires x <= 0
    ensures x * r <= 0
  {
  }

  lemma Monotone(x: int, y: int, r: nat)
    requires x <= y
    ensures x * r <= y * r
  {
    NonPositive(x - y, r);
    assert x * r == y * r + (x - y) * r;
  }

  /**
   However the span is chosen, a failing Redis is tried at most `threshold` times plus once per
   recovery period.
   */
  lemma AttemptBound(b: Breaker, threshold: int, recovery: nat, calls: seq<Call>)
    requires threshold >= 1 && Valid(b, threshold) && Sequential(calls) && calls != []
    ensures (Attempts(b, threshold, recovery, calls) - threshold) * recovery <= calls[|calls| - 1].asks - calls[0].asks
  {
    var n := Attempts(b, threshold, recovery, calls);
    LaterCalls(calls);
    if b.phase.Closed? {
      ClosedBound(b, threshold, recovery, calls);
      Monotone(n - threshold, n - (threshold - b.failures), recovery);
    } else if Admits(b, recovery, calls[0].asks) {
      SequentialTail(calls);
      var b' := After(b, threshold, recovery, calls[0]);
      OpenBound(b', threshold, recovery, calls[1..]);
      Monotone(n - threshold, n - 1, recovery);
    } else {
      RefusedBound(b, threshold, recovery, calls);
    }
  }

  /** An open breaker that refuses the first call of the span. */
  lemma {:induction false} RefusedBound(b: Breaker, threshold: int, recovery: nat, calls: seq<Call>)
    requires threshold >= 1 && b.phase.Open? && b.failures >= threshold && Sequential(calls) && calls != []
    requires !Admits(b, recovery, calls[0].asks)
    ensures (Attempts(b, threshold, recovery, calls) - threshold) * recovery <= calls[|calls| - 1].asks - calls[0].asks
  {
    var n := Attempts(b, threshold, recovery, calls);
    LaterCalls(calls);
    if n == 0 {
      NonPositive(n - threshold, recovery);
    } else {
      OpenBound(b, threshold, recovery, calls);
      Monotone(n - threshold, n - 1, recovery);
      assert (n - 1) * recovery == n * recovery - recovery;
    }
  }

  // ---------------------------------------------------------------------------------------
  // Overlapping callers
  // ---------------------------------------------------------------------------------------

  /** The breaker sees questions and recorded outcomes, in any interleaving of the calls behind them. */
  datatype Event = Ask(at: int) | Outcome(at: int, ok: bool)

  function Step(b: Breaker, threshold: int, recovery: int, e: Event): Breaker {
    match e
    case Ask(at) => Asked(b, recovery, at)
    case Outcome(at, ok) => if ok then Succeeded(b) else Failed(b, threshold, at)
  }

  function StateAt(b: Breaker, threshold: int, recovery: int, trace: seq<Event>, k: nat): Breaker
    requires k <= |trace|
  {
    if k == 0 then b else Step(StateAt(b, threshold, recovery, trace, k - 1), threshold, recovery, trace[k - 1])
  }

  /** The question at k moves an open breaker to half open. */
  predicate HalfOpens(b: Breaker, threshold: int, recovery: int, trace: seq<Event>, k: nat) {
    && k < |trace| && trace[k].Ask?
    && StateAt(b, threshold, recovery, trace, k).phase.Open?
    && Admits(StateAt(b, threshold, recovery, trace, k), recovery, trace[k].at)
  }

  /** Questions before the next recorded outcome. */
  function LeadingAsks(trace: seq<Event>): (n: nat)
    ensures n <= |trace| && forall i | 0 <= i < n :: trace[i].Ask?
    ensures n == |trace| || trace[n].Outcome?
    decreases |trace|
  {
    if trace == [] || trace[0].Outcome? then 0 else 1 + LeadingAsks(trace[1..])
  }

  /** How many of a run of questions are let through. */
  function Admissions(b: Breaker, recovery: int, asks: seq<Event>): nat
    decreases |asks|
  {
    if asks == [] then 0
    else (if Admits(b, recovery, asks[0].at) then 1 else 0) + Admissions(Asked(b, recovery, asks[0].at), recovery, asks[1..])
  }

  /** Calls admitted from the half-opening question at k up to the next outcome. */
  function Probes(b: Breaker, threshold: int, recovery: int, trace: seq<Event>, k: nat): nat
    requires k < |trace|
  {
    Admissions(StateAt(b, threshold, recovery, trace, k), recovery, trace[k..k + 1 + LeadingAsks(trace[k + 1..])])
  }

  lemma {:induction false} HalfOpenAdmitsAll(b: Breaker, recovery: int, asks: seq<Event>)
    requires b.phase.HalfOpen?
    ensures Admissions(b, recovery, asks) == |asks|
    decreases |asks|
  {
    if asks != [] {
      HalfOpenAdmitsAll(b, recovery, asks[1..]);
    }
  }

  /** A half-open phase admits every question in it, however many callers ask. */
  lemma ProbesCountAsks(b: Breaker, threshold: int, recovery: int, trace: seq<Event>, k: nat)
    requires HalfOpens(b, threshold, recovery, trace, k)
    ensures Probes(b, threshold, recovery, trace, k) == 1 + LeadingAsks(trace[k + 1..])
  {
    var s, n := StateAt(b, threshold, recovery, trace, k), LeadingAsks(trace[k + 1..]);
    var asks := trace[k..k + 1 + n];
    assert asks[0] == trace[k] && |asks[1..]| == n;
    HalfOpenAdmitsAll(Asked(s, recovery, trace[k].at), recovery, asks[1..]);
  }

  /** One probe per half-open phase, as the class promises, holds of a trace … */
  predicate OneProbe(b: Breaker, threshold: int, recovery: int, trace: seq<Event>) {
    forall k: nat | k < |trace| && HalfOpens(b, threshold, recovery, trace, k) :: Probes(b, threshold, recovery, trace, k) <= 1
  }

  /** … if nobody asks between a half-opening question and the next outcome. */
  predicate NobodyElseAsks(b: Breaker, threshold: int, recovery: int, trace: seq<Event>) {
    forall k: nat | k < |trace| && HalfOpens(b, threshold, recovery, trace, k) :: k + 1 == |trace| || trace[k + 1].Outcome?
  }

  lemma OneProbeIff(b: Breaker, threshold: int, recovery: int, trace: seq<Event>)
    ensures OneProbe(b, threshold, recovery, trace) <==> NobodyElseAsks(b, threshold, recovery, trace)
  {
    forall k: nat | k < |trace| && HalfOpens(b, threshold, recovery, trace, k)
      ensures Probes(b, threshold, recovery, trace, k) <= 1 <==> k + 1 == |trace| || trace[k + 1].Outcome?
    {
      ProbesCountAsks(b, threshold, recovery, trace, k);
      assert k + 1 < |trace| ==> trace[k + 1..][0] == trace[k + 1];
    }
  }

  predicate InOrder(trace: seq<Event>) {
    forall i, j | 0 <= i < j < |trace| :: trace[i].at <= trace[j].at
  }

  /** After a half-opening, an open breaker has failed since. */
  lemma {:induction false} FailedSince(b: Breaker, threshold: int, recovery: int, trace: seq<Event>, i: nat, k: nat)
    requires InOrder(trace) && HalfOpens(b, threshold, recovery, trace, i) && i < k <= |trace|
    ensures StateAt(b, threshold, recovery, trace, k).phase.Open? ==> StateAt(b, threshold, recovery, trace, k).lastFailure >= trace[i].at
    decreases k
  {
    if k > i + 1 {
      FailedSince(b, threshold, recovery, trace, i, k - 1);
      assert trace[i].at <= trace[k - 1].at;
    }
  }

  /** Whatever overlaps and whatever the outcomes, two half-open phases begin more than a recovery period apart. */
  lemma HalfOpeningsApart(b: Breaker, threshold: int, recovery: int, trace: seq<Event>, i: nat, k: nat)
    requires InOrder(trace) && i < k
    requires HalfOpens(b, threshold, recovery, trace, i) && HalfOpens(b, threshold, recovery, trace, k)
    ensures trace[k].at - trace[i].at > recovery
  {
    FailedSince(b, threshold, recovery, trace, i, k);
  }

  /** Two callers who ask at the same instant after the recovery time are both admitted. */
  lemma TwoProbes(recovery: nat)
    ensures !OneProbe(FRESH, 1, recovery, [Ask(0), Outcome(0, false), Ask(recovery + 1), Ask(recovery + 1)])
  {
    var trace := [Ask(0), Outcome(0, false), Ask(recovery + 1), Ask(recovery + 1)];
    assert StateAt(FRESH, 1, recovery, trace, 1) == FRESH;
    assert StateAt(FRESH, 1, recovery, trace, 2) == Breaker(1, 0, Open);
    assert HalfOpens(FRESH, 1, recovery, trace, 2);
    OneProbeIff(FRESH, 1, recovery, trace);
  }
}
