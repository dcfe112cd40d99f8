/** Real-time bandwidth: per-CPU runtime that is lent between CPUs, taken back when a CPU
    goes down, charged by running tasks and refilled once per period.

    A root domain is an array of per-CPU records.  Every section below runs under
    `rt_b->rt_runtime_lock` or the queue's own lock, so each is one step. */
module RtBandwidth {

  /** The runtime of a disabled queue: the largest u64. */
  const RUNTIME_INF: nat := 0xFFFF_FFFF_FFFF_FFFF

  /** The bandwidth fields of a `struct rt_rq`. */
  datatype RtRq = RtRq(runtime: nat, time: nat, throttled: bool, running: nat)

  /** The bandwidth settings shared by the CPUs of a root domain: `rt_b->rt_runtime`,
      `rt_b->rt_period`, and the switches the code consults. */
  datatype Bandwidth = Bandwidth(runtime: nat, period: nat, enabled: bool, share: bool, schedulerRunning: bool)

  /** A u64 never exceeds RUNTIME_INF. */
  predicate Overran(q: RtRq) {
    q.runtime != RUNTIME_INF && q.time > q.runtime
  }

  // ---------------------------------------------------------------------------
  // borrowing
  // ---------------------------------------------------------------------------

  /** Move `d` of runtime from CPU `i` to CPU `me`; `d` may be negative. */
  function Transfer(rqs: seq<RtRq>, i: nat, me: nat, d: int): seq<RtRq>
    requires i < |rqs| && me < |rqs| && i != me
    requires 0 <= rqs[i].runtime - d && 0 <= rqs[me].runtime + d
  {
    rqs[i := rqs[i].(runtime := rqs[i].runtime - d)][me := rqs[me].(runtime := rqs[me].runtime + d)]
  }

  /** What `me` takes from a neighbour with `spare` left: an n-th of it, cut so that `me`
      ends at the period.  The cut is negative when `me` already holds more. */
  function Share(mine: nat, spare: nat, period: nat, weight: nat): int
    requires weight >= 1
  {
    if mine + spare / weight > period then period - mine else spare / weight
  }

  lemma ShareBounds(mine: nat, spare: nat, period: nat, weight: nat)
    requires weight >= 1
    ensures Share(mine, spare, period, weight) <= spare
    ensures mine + Share(mine, spare, period, weight) >= 0
    ensures mine <= period ==> 0 <= Share(mine, spare, period, weight) <= period - mine
  {
    QuotientAtMost(spare, weight);
  }

  lemma QuotientAtMost(v: nat, d: nat)
    requires d >= 1
    ensures v / d <= v
  {
  }

  /** The rounds of `do_balance_runtime` from CPU `i` on. */
  function LendFrom(rqs: seq<RtRq>, me: nat, i: nat, period: nat): (r: (seq<RtRq>, bool))
    requires me < |rqs| && i <= |rqs|
    ensures |r.0| == |rqs|
    decreases |rqs| - i
  {
    if i == |rqs| then
      (rqs, false)
    else if i == me || rqs[i].runtime == RUNTIME_INF || rqs[i].runtime <= rqs[i].time then
      LendFrom(rqs, me, i + 1, period)
    else
      var spare := rqs[i].runtime - rqs[i].time;
      ShareBounds(rqs[me].runtime, spare, period, |rqs|);
      var rqs' := Transfer(rqs, i, me, Share(rqs[me].runtime, spare, period, |rqs|));
      if rqs'[me].runtime == period then (rqs', true)
      else (LendFrom(rqs', me, i + 1, period).0, true)
  }

  /** `balance_runtime`: borrow only when sharing is on and the queue overran. */
  function Balance(b: Bandwidth, rqs: seq<RtRq>, me: nat): seq<RtRq>
    requires me < |rqs|
  {
    if b.share && Overran(rqs[me]) then LendFrom(rqs, me, 0, b.period).0 else rqs
  }

  // ---------------------------------------------------------------------------
  // reclaiming, disabling, enabling
  // ---------------------------------------------------------------------------

  /** The greedy rounds of `__disable_runtime` from CPU `i` on; the second result is what is
      still wanted at the end, the argument of `BUG_ON`. */
  function ReclaimFrom(rqs: seq<RtRq>, me: nat, i: nat, want: int): (r: (seq<RtRq>, int))
    requires me < |rqs| && i <= |rqs|
    ensures |r.0| == |rqs|
    decreases |rqs| - i
  {
    if i == |rqs| then
      (rqs, want)
    else if i == me || rqs[i].runtime == RUNTIME_INF then
      ReclaimFrom(rqs, me, i + 1, want)
    else
      var d := if want > 0 && rqs[i].runtime < want then rqs[i].runtime else want;
      var rqs' := rqs[i := rqs[i].(runtime := rqs[i].runtime - d)];
      if want - d == 0 then (rqs', 0) else ReclaimFrom(rqs', me, i + 1, want - d)
  }

  /** `__disable_runtime`: the queues afterwards, and what was left wanting. */
  function Disable(b: Bandwidth, rqs: seq<RtRq>, me: nat): (seq<RtRq>, int)
    requires me < |rqs|
  {
    if !b.schedulerRunning then
      (rqs, 0)
    else if rqs[me].runtime == RUNTIME_INF || rqs[me].runtime == b.runtime then
      (rqs[me := rqs[me].(runtime := RUNTIME_INF)], 0)
    else
      var (rqs', want) := ReclaimFrom(rqs, me, 0, b.runtime - rqs[me].runtime);
      (rqs'[me := rqs'[me].(runtime := RUNTIME_INF)], want)
  }

  /** `__enable_runtime`. */
  function Enable(b: Bandwidth, rqs: seq<RtRq>, me: nat): seq<RtRq>
    requires me < |rqs|
  {
    if !b.schedulerRunning then rqs
    else rqs[me := rqs[me].(runtime := b.runtime, time := 0, throttled := false)]
  }

  // ---------------------------------------------------------------------------
  // charging and refilling
  // ---------------------------------------------------------------------------

  /** The end of `sched_rt_runtime_exceeded`, after any borrowing. */
  function Throttle(b: Bandwidth, q: RtRq): RtRq {
    if !Overran(q) then q
    else if b.runtime != 0 then q.(throttled := true)
    else q.(time := 0)
  }

  /** `sched_rt_runtime_exceeded`: borrow if possible, then throttle if not enough. */
  function RuntimeExceeded(b: Bandwidth, rqs: seq<RtRq>, me: nat): (r: seq<RtRq>)
    requires me < |rqs|
    ensures |r| == |rqs|
  {
    if rqs[me].throttled || rqs[me].runtime >= b.period then
      rqs
    else
      var rqs' := Balance(b, rqs, me);
      rqs'[me := Throttle(b, rqs'[me])]
  }

  /** `update_curr_rt` with an execution time of `delta`. */
  function Charge(b: Bandwidth, rqs: seq<RtRq>, me: nat, delta: nat): seq<RtRq>
    requires me < |rqs|
  {
    if !b.enabled || rqs[me].runtime == RUNTIME_INF then rqs
    else RuntimeExceeded(b, rqs[me := rqs[me].(time := rqs[me].time + delta)], me)
  }

  /** What `overrun` periods give back to a queue. */
  function Refund(q: RtRq, overrun: nat): nat {
    if q.runtime == RUNTIME_INF || q.time <= overrun * q.runtime then q.time else overrun * q.runtime
  }

  function Refill(q: RtRq, overrun: nat): RtRq {
    var time := q.time - Refund(q, overrun);
    q.(time := time, throttled := q.throttled && time >= q.runtime)
  }

  /** The period timer's work for one CPU. */
  function TimerCpu(b: Bandwidth, rqs: seq<RtRq>, me: nat, overrun: nat): seq<RtRq>
    requires me < |rqs|
  {
    if rqs[me].time == 0 then
      rqs
    else
      var rqs1 := if rqs[me].throttled then Balance(b, rqs, me) else rqs;
      rqs1[me := Refill(rqs1[me], overrun)]
  }

  // ---------------------------------------------------------------------------
  // conservation
  // ---------------------------------------------------------------------------

  function EnabledSum(rqs: seq<RtRq>): nat {
    if rqs == [] then 0
    else EnabledSum(rqs[1..]) + (if rqs[0].runtime == RUNTIME_INF then 0 else rqs[0].runtime)
  }

  function EnabledCount(rqs: seq<RtRq>): nat {
    if rqs == [] then 0
    else EnabledCount(rqs[1..]) + (if rqs[0].runtime == RUNTIME_INF then 0 else 1)
  }

  /** How much one queue holds above its own allotment. */
  function Excess(q: RtRq, runtime: nat): int {
    if q.runtime == RUNTIME_INF then 0 else q.runtime - runtime
  }

  function Surplus(rqs: seq<RtRq>, runtime: nat): int {
    if rqs == [] then 0 else Excess(rqs[0], runtime) + Surplus(rqs[1..], runtime)
  }

  /** The runtime held by the enabled queues is their number times the allotment.  (With
      RUNTIME_INF as allotment bandwidth control is off and every queue is disabled.) */
  ghost predicate Conserved(b: Bandwidth, rqs: seq<RtRq>) {
    if b.runtime == RUNTIME_INF then forall k :: 0 <= k < |rqs| ==> rqs[k].runtime == RUNTIME_INF
    else EnabledSum(rqs) == EnabledCount(rqs) * b.runtime
  }

  /** The allotments of all CPUs together fit a u64 with room to spare. */
  predicate Fits(b: Bandwidth, cpus: nat) {
    b.runtime == RUNTIME_INF || cpus * b.runtime < RUNTIME_INF
  }

  lemma {:induction false} SurplusIsDifference(rqs: seq<RtRq>, runtime: nat)
    ensures Surplus(rqs, runtime) == EnabledSum(rqs) - EnabledCount(rqs) * runtime
  {
    if rqs != [] {
      SurplusIsDifference(rqs[1..], runtime);
      Distribute(EnabledCount(rqs[1..]), runtime);
    }
  }

  lemma Distribute(n: nat, k: nat)
    ensures (n + 1) * k == n * k + k
  {
  }

  lemma {:induction false} SurplusUpdate(rqs: seq<RtRq>, runtime: nat, i: nat, q: RtRq)
    requires i < |rqs|
    ensures Surplus(rqs[i := q], runtime) == Surplus(rqs, runtime) - Excess(rqs[i], runtime) + Excess(q, runtime)
  {
    if i == 0 {
      assert rqs[i := q][1..] == rqs[1..];
    } else {
      assert rqs[i := q][1..] == rqs[1..][i - 1 := q];
      SurplusUpdate(rqs[1..], runtime, i - 1, q);
    }
  }

  lemma {:induction false} EnabledCountBound(rqs: seq<RtRq>)
    ensures EnabledCount(rqs) <= |rqs|
  {
    if rqs != [] {
      EnabledCountBound(rqs[1..]);
    }
  }

  /** Two enabled queues together hold no more than the total. */
  lemma {:induction false} PairWithinSum(rqs: seq<RtRq>, i: nat, j: nat)
    requires i < j < |rqs| && rqs[i].runtime != RUNTIME_INF && rqs[j].runtime != RUNTIME_INF
    ensures rqs[i].runtime + rqs[j].runtime <= EnabledSum(rqs)
  {
    if i == 0 {
      OneWithinSum(rqs[1..], j - 1);
    } else {
      PairWithinSum(rqs[1..], i - 1, j - 1);
    }
  }

  lemma {:induction false} OneWithinSum(rqs: seq<RtRq>, i: nat)
    requires i < |rqs| && rqs[i].runtime != RUNTIME_INF
    ensures rqs[i].runtime <= EnabledSum(rqs)
  {
    if i > 0 {
      OneWithinSum(rqs[1..], i - 1);
    }
  }

  /** Under conservation no enabled queue, and no two together, can reach RUNTIME_INF. */
  lemma ConservedBound(b: Bandwidth, rqs: seq<RtRq>)
    requires Conserved(b, rqs) && Fits(b, |rqs|) && b.runtime != RUNTIME_INF
    ensures EnabledSum(rqs) < RUNTIME_INF && Surplus(rqs, b.runtime) == 0
  {
    SurplusIsDifference(rqs, b.runtime);
    EnabledCountBound(rqs);
    MultiplyMonotone(EnabledCount(rqs), |rqs|, b.runtime);
  }

  lemma MultiplyMonotone(m: nat, n: nat, k: nat)
    requires m <= n
    ensures m * k <= n * k
  {
  }

  lemma SurplusZeroConserves(b: Bandwidth, rqs: seq<RtRq>)
    requires b.runtime != RUNTIME_INF && Surplus(rqs, b.runtime) == 0
    ensures Conserved(b, rqs)
  {
    SurplusIsDifference(rqs, b.runtime);
  }

  /** A transfer between two enabled queues conserves, and leaves both enabled. */
  lemma TransferConserves(b: Bandwidth, rqs: seq<RtRq>, i: nat, me: nat, d: int)
    requires i < |rqs| && me < |rqs| && i != me && Conserved(b, rqs) && Fits(b, |rqs|)
    requires rqs[i].runtime != RUNTIME_INF && rqs[me].runtime != RUNTIME_INF
    requires 0 <= rqs[i].runtime - d && 0 <= rqs[me].runtime + d
    ensures Conserved(b, Transfer(rqs, i, me, d))
    ensures Transfer(rqs, i, me, d)[me].runtime != RUNTIME_INF
  {
    ConservedBound(b, rqs);
    if i < me { PairWithinSum(rqs, i, me); } else { PairWithinSum(rqs, me, i); }
    var lender := rqs[i].(runtime := rqs[i].runtime - d);
    var borrower := rqs[me].(runtime := rqs[me].runtime + d);
    SurplusUpdate(rqs, b.runtime, i, lender);
    SurplusUpdate(rqs[i := lender], b.runtime, me, borrower);
    SurplusZeroConserves(b, Transfer(rqs, i, me, d));
  }

  lemma {:induction false} LendConserves(b: Bandwidth, rqs: seq<RtRq>, me: nat, i: nat)
    requires me < |rqs| && i <= |rqs| && Conserved(b, rqs) && Fits(b, |rqs|) && rqs[me].runtime != RUNTIME_INF
    ensures Conserved(b, LendFrom(rqs, me, i, b.period).0)
    decreases |rqs| - i
  {
    hide Share;
    if i == |rqs| {
    } else if i == me || rqs[i].runtime == RUNTIME_INF || rqs[i].runtime <= rqs[i].time {
      LendConserves(b, rqs, me, i + 1);
    } else {
      var spare := rqs[i].runtime - rqs[i].time;
      var d := Share(rqs[me].runtime, spare, b.period, |rqs|);
      ShareBounds(rqs[me].runtime, spare, b.period, |rqs|);
      TransferConserves(b, rqs, i, me, d);
      LendConserves(b, Transfer(rqs, i, me, d), me, i + 1);
    }
  }

  /** A borrower below the period ends no lower than it started and no higher than the period. */
  lemma {:induction false} BorrowerBounded(rqs: seq<RtRq>, me: nat, i: nat, period: nat)
    requires me < |rqs| && i <= |rqs| && rqs[me].runtime <= period
    ensures rqs[me].runtime <= LendFrom(rqs, me, i, period).0[me].runtime <= period
    decreases |rqs| - i
  {
    hide Share;
    if i == |rqs| {
    } else if i == me || rqs[i].runtime == RUNTIME_INF || rqs[i].runtime <= rqs[i].time {
      BorrowerBounded(rqs, me, i + 1, period);
    } else {
      var spare := rqs[i].runtime - rqs[i].time;
      ShareBounds(rqs[me].runtime, spare, period, |rqs|);
      BorrowerBounded(Transfer(rqs, i, me, Share(rqs[me].runtime, spare, period, |rqs|)), me, i + 1, period);
    }
  }

  /** A lender gives at most an n-th of its spare time, so it keeps what it has used. */
  lemma {:induction false} LenderKeepsUsedTime(rqs: seq<RtRq>, me: nat, i: nat, period: nat, k: nat)
    requires me < |rqs| && i <= |rqs| && k < |rqs| && k != me && rqs[me].runtime <= period
    ensures var left := LendFrom(rqs, me, i, period).0[k].runtime;
            left == rqs[k].runtime || rqs[k].time <= left <= rqs[k].runtime
    decreases |rqs| - i
  {
    hide Share;
    if i == |rqs| {
    } else if i == me || rqs[i].runtime == RUNTIME_INF || rqs[i].runtime <= rqs[i].time {
      LenderKeepsUsedTime(rqs, me, i + 1, period, k);
    } else {
      var spare := rqs[i].runtime - rqs[i].time;
      ShareBounds(rqs[me].runtime, spare, period, |rqs|);
      LenderKeepsUsedTime(Transfer(rqs, i, me, Share(rqs[me].runtime, spare, period, |rqs|)), me, i + 1, period, k);
    }
  }

  /** The greedy rounds shift the surplus by what they took, and disable nobody. */
  lemma {:induction false} ReclaimSurplus(rqs: seq<RtRq>, runtime: nat, me: nat, i: nat, want: int)
    requires me < |rqs| && i <= |rqs| && want != 0
    requires want < 0 ==> forall k :: i <= k < |rqs| && k != me && rqs[k].runtime != RUNTIME_INF ==> rqs[k].runtime - want < RUNTIME_INF
    requires forall k :: 0 <= k < |rqs| ==> rqs[k].runtime <= RUNTIME_INF
    ensures var (rqs', left) := ReclaimFrom(rqs, me, i, want);
            && Surplus(rqs', runtime) == Surplus(rqs, runtime) - (want - left)
            && rqs'[me] == rqs[me]
    decreases |rqs| - i
  {
    if i == |rqs| {
    } else if i == me || rqs[i].runtime == RUNTIME_INF {
      ReclaimSurplus(rqs, runtime, me, i + 1, want);
    } else {
      var d := if want > 0 && rqs[i].runtime < want then rqs[i].runtime else want;
      var q := rqs[i].(runtime := rqs[i].runtime - d);
      SurplusUpdate(rqs, runtime, i, q);
      if want - d != 0 {
        ReclaimSurplus(rqs[i := q], runtime, me, i + 1, want - d);
      }
    }
  }

  /** The rounds end wanting more only after draining every other queue, and wanting to give
      only if there is no other. */
  lemma {:induction false} ReclaimLeftover(rqs: seq<RtRq>, me: nat, i: nat, want: int)
    requires me < |rqs| && i <= |rqs| && want != 0
    requires forall k :: 0 <= k < |rqs| ==> rqs[k].runtime <= RUNTIME_INF
    ensures var (rqs', left) := ReclaimFrom(rqs, me, i, want);
            && (forall k :: 0 <= k < i ==> rqs'[k] == rqs[k])
            && (left > 0 ==> want > 0 && forall k :: i <= k < |rqs| && k != me && rqs'[k].runtime != RUNTIME_INF ==> rqs'[k].runtime == 0)
            && (left < 0 ==> want < 0 && forall k :: i <= k < |rqs| && k != me ==> rqs'[k].runtime == RUNTIME_INF)
    decreases |rqs| - i
  {
    if i == |rqs| {
    } else if i == me || rqs[i].runtime == RUNTIME_INF {
      ReclaimLeftover(rqs, me, i + 1, want);
    } else {
      var d := if want > 0 && rqs[i].runtime < want then rqs[i].runtime else want;
      if want - d != 0 {
        ReclaimLeftover(rqs[i := rqs[i].(runtime := rqs[i].runtime - d)], me, i + 1, want - d);
      }
    }
  }

  lemma {:induction false} DrainedSurplus(rqs: seq<RtRq>, runtime: nat)
    requires forall k :: 0 <= k < |rqs| && rqs[k].runtime != RUNTIME_INF ==> rqs[k].runtime == 0
    ensures Surplus(rqs, runtime) <= 0
  {
    if rqs != [] {
      DrainedSurplus(rqs[1..], runtime);
    }
  }

  lemma {:induction false} DisabledSurplus(rqs: seq<RtRq>, runtime: nat)
    requires forall k :: 0 <= k < |rqs| ==> rqs[k].runtime == RUNTIME_INF
    ensures Surplus(rqs, runtime) == 0
  {
    if rqs != [] {
      DisabledSurplus(rqs[1..], runtime);
    }
  }

  /** Disabling a queue of a conserved domain always gets back exactly what it lent or owes:
      nothing is left wanting, so `BUG_ON(want)` cannot fire, whichever sign it starts with. */
  lemma DisableConserves(b: Bandwidth, rqs: seq<RtRq>, me: nat)
    requires me < |rqs| && Conserved(b, rqs) && Fits(b, |rqs|)
    ensures Disable(b, rqs, me).1 == 0
    ensures |Disable(b, rqs, me).0| == |rqs| && Conserved(b, Disable(b, rqs, me).0)
    ensures b.schedulerRunning ==> Disable(b, rqs, me).0[me].runtime == RUNTIME_INF
  {
    if !b.schedulerRunning {
    } else if rqs[me].runtime == RUNTIME_INF {
      assert Disable(b, rqs, me).0 == rqs;
    } else if rqs[me].runtime == b.runtime {
      ConservedBound(b, rqs);
      SurplusUpdate(rqs, b.runtime, me, rqs[me].(runtime := RUNTIME_INF));
      SurplusZeroConserves(b, Disable(b, rqs, me).0);
    } else {
      var want := b.runtime - rqs[me].runtime;
      ConservedBound(b, rqs);
      NeighboursHaveRoom(b, rqs, me);
      forall k | 0 <= k < |rqs| && rqs[k].runtime != RUNTIME_INF ensures rqs[k].runtime <= RUNTIME_INF {
        OneWithinSum(rqs, k);
      }
      ReclaimSurplus(rqs, b.runtime, me, 0, want);
      ReclaimLeftover(rqs, me, 0, want);
      var (rqs', left) := ReclaimFrom(rqs, me, 0, want);
      var disabled := rqs'[me := rqs'[me].(runtime := RUNTIME_INF)];
      SurplusUpdate(rqs', b.runtime, me, rqs'[me].(runtime := RUNTIME_INF));
      assert Surplus(disabled, b.runtime) == left;
      if left > 0 {
        DrainedSurplus(disabled, b.runtime);
        assert false;
      }
      if left < 0 {
        DisabledSurplus(disabled, b.runtime);
        assert false;
      }
      SurplusZeroConserves(b, disabled);
    }
  }

  lemma NeighboursHaveRoom(b: Bandwidth, rqs: seq<RtRq>, me: nat)
    requires me < |rqs| && rqs[me].runtime != RUNTIME_INF && EnabledSum(rqs) < RUNTIME_INF
    ensures forall k :: 0 <= k < |rqs| && k != me && rqs[k].runtime != RUNTIME_INF ==>
              rqs[k].runtime - (b.runtime - rqs[me].runtime) < RUNTIME_INF
  {
    forall k | 0 <= k < |rqs| && k != me && rqs[k].runtime != RUNTIME_INF
      ensures rqs[k].runtime + rqs[me].runtime < RUNTIME_INF
    {
      if k < me { PairWithinSum(rqs, k, me); } else { PairWithinSum(rqs, me, k); }
    }
  }

  /** Enabling conserves exactly when the queue was disabled or held just its allotment. */
  lemma EnableConserves(b: Bandwidth, rqs: seq<RtRq>, me: nat)
    requires me < |rqs| && Conserved(b, rqs) && Fits(b, |rqs|) && b.schedulerRunning
    ensures Conserved(b, Enable(b, rqs, me)) <==> rqs[me].runtime == RUNTIME_INF || rqs[me].runtime == b.runtime
    ensures var q := Enable(b, rqs, me)[me];
      q.runtime == b.runtime && q.time == 0 && !q.throttled && q.running == rqs[me].running
  {
    if b.runtime != RUNTIME_INF {
      ConservedBound(b, rqs);
      SurplusUpdate(rqs, b.runtime, me, Enable(b, rqs, me)[me]);
      SurplusIsDifference(Enable(b, rqs, me), b.runtime);
    }
  }

  lemma BalanceConserves(b: Bandwidth, rqs: seq<RtRq>, me: nat)
    requires me < |rqs| && Conserved(b, rqs) && Fits(b, |rqs|)
    ensures Conserved(b, Balance(b, rqs, me))
  {
    if Overran(rqs[me]) {
      LendConserves(b, rqs, me, 0);
    }
  }

  /** Changing anything but the runtime of a queue conserves. */
  lemma OtherFieldsConserve(b: Bandwidth, rqs: seq<RtRq>, me: nat, q: RtRq)
    requires me < |rqs| && Conserved(b, rqs) && q.runtime == rqs[me].runtime
    ensures Conserved(b, rqs[me := q])
  {
    if b.runtime != RUNTIME_INF {
      SurplusIsDifference(rqs, b.runtime);
      SurplusUpdate(rqs, b.runtime, me, q);
      SurplusZeroConserves(b, rqs[me := q]);
    }
  }

  lemma ChargeConserves(b: Bandwidth, rqs: seq<RtRq>, me: nat, delta: nat)
    requires me < |rqs| && Conserved(b, rqs) && Fits(b, |rqs|)
    ensures Conserved(b, Charge(b, rqs, me, delta))
  {
    var rqs1 := rqs[me := rqs[me].(time := rqs[me].time + delta)];
    OtherFieldsConserve(b, rqs, me, rqs1[me]);
    var rqs2 := Balance(b, rqs1, me);
    BalanceConserves(b, rqs1, me);
    OtherFieldsConserve(b, rqs2, me, Throttle(b, rqs2[me]));
  }

  lemma TimerConserves(b: Bandwidth, rqs: seq<RtRq>, me: nat, overrun: nat)
    requires me < |rqs| && Conserved(b, rqs) && Fits(b, |rqs|)
    ensures Conserved(b, TimerCpu(b, rqs, me, overrun))
  {
    var rqs1 := if rqs[me].throttled then Balance(b, rqs, me) else rqs;
    BalanceConserves(b, rqs, me);
    OtherFieldsConserve(b, rqs1, me, Refill(rqs1[me], overrun));
  }

  // ---------------------------------------------------------------------------
  // what is borrowed
  // ---------------------------------------------------------------------------

  function Min(a: int, b: int): int {
    if a < b then a else b
  }

  function Max(a: int, b: int): int {
    if a < b then b else a
  }

  /** An enabled neighbour that has not used up its runtime. */
  predicate Lends(rqs: seq<RtRq>, me: nat, k: nat) {
    k < |rqs| && k != me && rqs[k].runtime != RUNTIME_INF && rqs[k].time < rqs[k].runtime
  }

  /** An n-th of what a neighbour has not used, on `n` CPUs. */
  function FairShare(rqs: seq<RtRq>, me: nat, k: nat): nat {
    if Lends(rqs, me, k) then (rqs[k].runtime - rqs[k].time) / |rqs| else 0
  }

  /** The shares of the CPUs from `i` up to `j`. */
  function TotalShares(rqs: seq<RtRq>, me: nat, i: nat, j: nat): nat
    requires i <= j
    decreases j - i
  {
    if i == j then 0 else FairShare(rqs, me, i) + TotalShares(rqs, me, i + 1, j)
  }

  lemma {:induction false} SharesUnchanged(rqs: seq<RtRq>, rqs': seq<RtRq>, me: nat, i: nat, j: nat)
    requires i <= j && |rqs| == |rqs'|
    requires forall k :: i <= k < |rqs| && k != me ==> rqs'[k] == rqs[k]
    ensures TotalShares(rqs', me, i, j) == TotalShares(rqs, me, i, j)
    decreases j - i
  {
    if i < j {
      SharesUnchanged(rqs, rqs', me, i + 1, j);
    }
  }

  /** One round below the period: the neighbour gives its share or what is missing. */
  lemma LendRound(rqs: seq<RtRq>, me: nat, i: nat, period: nat) returns (rqs': seq<RtRq>, d: nat)
    requires me < |rqs| && Lends(rqs, me, i) && rqs[me].runtime <= period
    ensures d == Min(FairShare(rqs, me, i), period - rqs[me].runtime) && d <= rqs[i].runtime
    ensures rqs' == rqs[i := rqs[i].(runtime := rqs[i].runtime - d)][me := rqs[me].(runtime := rqs[me].runtime + d)]
    ensures LendFrom(rqs, me, i, period).0
            == if rqs[me].runtime + d == period then rqs' else LendFrom(rqs', me, i + 1, period).0
  {
    var spare := rqs[i].runtime - rqs[i].time;
    ShareBounds(rqs[me].runtime, spare, period, |rqs|);
    d := Share(rqs[me].runtime, spare, period, |rqs|);
    rqs' := Transfer(rqs, i, me, d);
  }

  /** Borrowing below the period gets the shares of all neighbours together, or what is
      missing to the period. */
  lemma {:induction false} BorrowerGets(rqs: seq<RtRq>, me: nat, i: nat, period: nat)
    requires me < |rqs| && i <= |rqs| && rqs[me].runtime <= period
    ensures LendFrom(rqs, me, i, period).0[me].runtime == Min(period, rqs[me].runtime + TotalShares(rqs, me, i, |rqs|))
    decreases |rqs| - i
  {
    hide FairShare, Share, Transfer;
    if i == |rqs| {
    } else if !Lends(rqs, me, i) {
      NoShare(rqs, me, i);
      BorrowerGets(rqs, me, i + 1, period);
    } else {
      var rqs', d := LendRound(rqs, me, i, period);
      SharesUnchanged(rqs, rqs', me, i + 1, |rqs|);
      if rqs'[me].runtime != period {
        BorrowerGets(rqs', me, i + 1, period);
      }
    }
  }

  lemma NoShare(rqs: seq<RtRq>, me: nat, i: nat)
    requires !Lends(rqs, me, i)
    ensures FairShare(rqs, me, i) == 0
  {
  }

  /** Each neighbour gives its share as long as something is missing. */
  lemma {:induction false} LenderGives(rqs: seq<RtRq>, me: nat, i: nat, period: nat, k: nat)
    requires me < |rqs| && i <= |rqs| && k < |rqs| && k != me && rqs[me].runtime <= period
    ensures rqs[k].runtime - LendFrom(rqs, me, i, period).0[k].runtime
            == if k < i then 0
               else Min(FairShare(rqs, me, k), Max(0, period - rqs[me].runtime - TotalShares(rqs, me, i, k)))
    decreases |rqs| - i
  {
    hide FairShare, Share, Transfer;
    if i == |rqs| {
    } else if !Lends(rqs, me, i) {
      NoShare(rqs, me, i);
      LenderGives(rqs, me, i + 1, period, k);
    } else {
      var rqs', d := LendRound(rqs, me, i, period);
      if i < k {
        SharesUnchanged(rqs, rqs', me, i + 1, k);
        SharesUnchanged(rqs, rqs', me, k, k + 1);
      }
      if rqs'[me].runtime != period {
        LenderGives(rqs', me, i + 1, period, k);
      }
    }
  }

  /** While the shares fit below the period, each neighbour gives exactly its share. */
  lemma LendersGiveTheirShares(rqs: seq<RtRq>, me: nat, period: nat, k: nat)
    requires me < |rqs| && k < |rqs| && k != me
    requires rqs[me].runtime + TotalShares(rqs, me, 0, |rqs|) <= period
    ensures LendFrom(rqs, me, 0, period).0[k].runtime == rqs[k].runtime - FairShare(rqs, me, k)
  {
    LenderGives(rqs, me, 0, period, k);
    SharesSplit(rqs, me, 0, k, |rqs|);
  }

  lemma {:induction false} SharesSplit(rqs: seq<RtRq>, me: nat, i: nat, k: nat, j: nat)
    requires i <= k < j
    ensures TotalShares(rqs, me, i, j) >= TotalShares(rqs, me, i, k) + FairShare(rqs, me, k)
    decreases k - i
  {
    if i < k {
      SharesSplit(rqs, me, i + 1, k, j);
    }
  }

  /** `more` says that some neighbour could lend. */
  lemma {:induction false} LendReports(rqs: seq<RtRq>, me: nat, i: nat, period: nat)
    requires me < |rqs| && i <= |rqs|
    ensures LendFrom(rqs, me, i, period).1 <==> exists k: nat :: i <= k && Lends(rqs, me, k)
    decreases |rqs| - i
  {
    if i < |rqs| {
      if Lends(rqs, me, i) {
        ShareBounds(rqs[me].runtime, rqs[i].runtime - rqs[i].time, period, |rqs|);
      } else {
        LendReports(rqs, me, i + 1, period);
      }
    }
  }

  /** A borrower above the period, which a neighbour's disabling can leave, gives what it has
      too much to the first one that lends, and nobody else is touched. */
  lemma {:induction false} OverfullGivesBack(rqs: seq<RtRq>, me: nat, i: nat, period: nat, first: nat)
    requires me < |rqs| && i <= first && Lends(rqs, me, first) && rqs[me].runtime > period
    requires forall k: nat | i <= k < first :: !Lends(rqs, me, k)
    ensures var (r, _) := LendFrom(rqs, me, i, period);
      && r[me].runtime == period && r[first].runtime == rqs[first].runtime + (rqs[me].runtime - period)
      && forall k: nat | k < |rqs| && k != me && k != first :: r[k] == rqs[k]
    decreases first - i
  {
    if i < first {
      assert !Lends(rqs, me, i);
      OverfullGivesBack(rqs, me, i + 1, period, first);
    } else {
      ShareBounds(rqs[me].runtime, rqs[i].runtime - rqs[i].time, period, |rqs|);
    }
  }

  /** What charging comes to: with sharing on, an overrunning queue first gets the shares of
      its neighbours, up to the period, and it is throttled if and only if it has used more
      than it then has. */
  lemma ChargeThrottlesIff(b: Bandwidth, rqs: seq<RtRq>, me: nat, delta: nat)
    requires me < |rqs| && b.enabled && b.runtime != 0 && b.period < RUNTIME_INF
    requires !rqs[me].throttled && rqs[me].runtime < b.period
    ensures var q := Charge(b, rqs, me, delta)[me];
      && q.time == rqs[me].time + delta
      && q.runtime == (if b.share && q.time > rqs[me].runtime
                       then Min(b.period, rqs[me].runtime + TotalShares(rqs, me, 0, |rqs|)) else rqs[me].runtime)
      && (q.throttled <==> q.time > q.runtime)
  {
    var rqs1 := rqs[me := rqs[me].(time := rqs[me].time + delta)];
    BorrowerGets(rqs1, me, 0, b.period);
    LendKeepsFlags(rqs1, me, 0, b.period, me);
    SharesUnchanged(rqs, rqs1, me, 0, |rqs|);
  }

  /** With control off, or on a disabled queue, nothing is charged; a queue that is throttled
      already or holds the whole period is charged and that is all. */
  lemma ChargeOnly(b: Bandwidth, rqs: seq<RtRq>, me: nat, delta: nat)
    requires me < |rqs|
    ensures !b.enabled || rqs[me].runtime == RUNTIME_INF ==> Charge(b, rqs, me, delta) == rqs
    ensures b.enabled && rqs[me].runtime != RUNTIME_INF && (rqs[me].throttled || rqs[me].runtime >= b.period) ==>
      Charge(b, rqs, me, delta) == rqs[me := rqs[me].(time := rqs[me].time + delta)]
  {
  }

  /** A queue without an allotment is not throttled; what it used too much is forgotten. */
  lemma UnassignedIsForgiven(b: Bandwidth, rqs: seq<RtRq>, me: nat, delta: nat)
    requires me < |rqs| && b.enabled && b.runtime == 0 && b.period < RUNTIME_INF && !b.share
    requires !rqs[me].throttled && rqs[me].runtime < b.period
    ensures var q := Charge(b, rqs, me, delta)[me];
      && q.runtime == rqs[me].runtime && !q.throttled && q.time <= q.runtime
      && (rqs[me].time + delta <= q.runtime ==> q.time == rqs[me].time + delta)
  {
  }

  /** The same at a firing of the period timer, which borrows for a throttled queue before it
      gives back time: the queue stays throttled if and only if what it has used beyond
      `overrun` times what it then has is at least that much again. */
  lemma TimerThrottlesIff(b: Bandwidth, rqs: seq<RtRq>, me: nat, overrun: nat)
    requires me < |rqs| && b.share && b.period < RUNTIME_INF
    requires rqs[me].throttled && rqs[me].runtime <= b.period && rqs[me].time > rqs[me].runtime
    ensures var q := TimerCpu(b, rqs, me, overrun)[me];
      && q.runtime == Min(b.period, rqs[me].runtime + TotalShares(rqs, me, 0, |rqs|))
      && q.time == Max(0, rqs[me].time - overrun * q.runtime)
      && (q.throttled <==> q.time >= q.runtime)
  {
    BorrowerGets(rqs, me, 0, b.period);
    LendKeepsFlags(rqs, me, 0, b.period, me);
  }

  /** Without sharing, a firing of the timer gives every CPU of the mask `overrun` allotments of
      its own back, and leaves the others alone. */
  lemma {:induction false} TimerReaches(b: Bandwidth, rqs: seq<RtRq>, i: nat, overrun: nat, online: seq<bool>, k: nat)
    requires i <= |rqs| == |online| && !b.share && k < |rqs| && rqs[k].runtime != RUNTIME_INF
    ensures |TimerFrom(b, rqs, i, overrun, online)| == |rqs|
    ensures var (q, r) := (rqs[k], TimerFrom(b, rqs, i, overrun, online)[k]);
      if k < i || !online[k] || q.time == 0 then r == q
      else r == q.(time := Max(0, q.time - overrun * q.runtime),
                   throttled := q.throttled && q.time - overrun * q.runtime >= q.runtime)
    decreases |rqs| - i
  {
    if i < |rqs| {
      TimerReaches(b, if online[i] then TimerCpu(b, rqs, i, overrun) else rqs, i + 1, overrun, online, k);
    }
  }

  // ---------------------------------------------------------------------------
  // what is reclaimed
  // ---------------------------------------------------------------------------

  /** What the enabled neighbours from `i` up to `j` hold. */
  function Holdings(rqs: seq<RtRq>, me: nat, i: nat, j: nat): nat
    requires i <= j <= |rqs|
    decreases j - i
  {
    if i == j then 0
    else (if i == me || rqs[i].runtime == RUNTIME_INF then 0 else rqs[i].runtime) + Holdings(rqs, me, i + 1, j)
  }

  lemma {:induction false} HoldingsUnchanged(rqs: seq<RtRq>, rqs': seq<RtRq>, me: nat, i: nat, j: nat)
    requires i <= j <= |rqs| && |rqs| == |rqs'|
    requires forall k :: i <= k < |rqs| ==> rqs'[k] == rqs[k]
    ensures Holdings(rqs', me, i, j) == Holdings(rqs, me, i, j)
    decreases j - i
  {
    if i < j {
      HoldingsUnchanged(rqs, rqs', me, i + 1, j);
    }
  }

  /** One greedy round: all that the neighbour holds, or what is still wanted. */
  lemma ReclaimRound(rqs: seq<RtRq>, me: nat, i: nat, want: nat) returns (rqs': seq<RtRq>, d: nat)
    requires me < |rqs| && i < |rqs| && i != me && rqs[i].runtime < RUNTIME_INF && want > 0
    ensures d == Min(rqs[i].runtime, want)
    ensures rqs' == rqs[i := rqs[i].(runtime := rqs[i].runtime - d)]
    ensures ReclaimFrom(rqs, me, i, want) == if want == d then (rqs', 0) else ReclaimFrom(rqs', me, i + 1, want - d)
  {
    d := Min(rqs[i].runtime, want);
    rqs' := rqs[i := rqs[i].(runtime := rqs[i].runtime - d)];
  }

  /** A lender takes back first from the first enabled neighbours, from each all that it holds
      or what is still wanted. */
  lemma {:induction false} ReclaimTakes(rqs: seq<RtRq>, me: nat, i: nat, want: nat, k: nat)
    requires me < |rqs| && i <= |rqs| && k < |rqs| && want > 0
    requires forall k :: 0 <= k < |rqs| ==> rqs[k].runtime <= RUNTIME_INF
    ensures var (r, left) := ReclaimFrom(rqs, me, i, want);
      && left == Max(0, want - Holdings(rqs, me, i, |rqs|))
      && r[k].runtime == if k < i || k == me || rqs[k].runtime == RUNTIME_INF then rqs[k].runtime
                         else Max(0, rqs[k].runtime - Max(0, want - Holdings(rqs, me, i, k)))
    decreases |rqs| - i
  {
    if i == |rqs| {
    } else if i == me || rqs[i].runtime == RUNTIME_INF {
      ReclaimTakes(rqs, me, i + 1, want, k);
    } else {
      var rqs', d := ReclaimRound(rqs, me, i, want);
      HoldingsUnchanged(rqs, rqs', me, i + 1, |rqs|);
      if i < k {
        HoldingsUnchanged(rqs, rqs', me, i + 1, k);
      }
      hide ReclaimFrom;
      if want != d {
        ReclaimTakes(rqs', me, i + 1, want - d, k);
      }
    }
  }

  /** A borrower returns everything to the first enabled neighbour. */
  lemma {:induction false} ReclaimReturns(rqs: seq<RtRq>, me: nat, i: nat, want: int, first: nat)
    requires me < |rqs| && i <= first < |rqs| && want < 0 && first != me && rqs[first].runtime != RUNTIME_INF
    requires forall k :: i <= k < first && k != me ==> rqs[k].runtime == RUNTIME_INF
    ensures ReclaimFrom(rqs, me, i, want) == (rqs[first := rqs[first].(runtime := rqs[first].runtime - want)], 0)
    decreases first - i
  {
    if i < first {
      ReclaimReturns(rqs, me, i + 1, want, first);
    }
  }

  // ---------------------------------------------------------------------------
  // whole runs
  // ---------------------------------------------------------------------------

  datatype Step =
    | Charging(cpu: nat, delta: nat)
    | Refilling(cpu: nat, overrun: nat)
    | Disabling(cpu: nat)
    | Enabling(cpu: nat)
    | TasksChange(cpu: nat, running: nat)

  /** Enabling is a step only for a disabled queue; see `EnableConserves`. */
  predicate Legal(rqs: seq<RtRq>, step: Step) {
    step.cpu < |rqs| && (step.Enabling? ==> rqs[step.cpu].runtime == RUNTIME_INF)
  }

  function Next(b: Bandwidth, rqs: seq<RtRq>, step: Step): (r: seq<RtRq>)
    requires step.cpu < |rqs|
  {
    match step
    case Charging(cpu, delta) => Charge(b, rqs, cpu, delta)
    case Refilling(cpu, overrun) => TimerCpu(b, rqs, cpu, overrun)
    case Disabling(cpu) => Disable(b, rqs, cpu).0
    case Enabling(cpu) => Enable(b, rqs, cpu)
    case TasksChange(cpu, running) => rqs[cpu := rqs[cpu].(running := running)]
  }

  /** `states` is a run from the boot state: every queue starts with its allotment. */
  ghost predicate IsRun(b: Bandwidth, states: seq<seq<RtRq>>, steps: seq<Step>) {
    && |states| == |steps| + 1
    && (forall k :: 0 <= k < |states[0]| ==> states[0][k] == RtRq(b.runtime, 0, false, 0))
    && (forall n :: 0 <= n < |steps| ==> Legal(states[n], steps[n]) && states[n + 1] == Next(b, states[n], steps[n]))
  }

  lemma {:induction false} BootSurplus(b: Bandwidth, rqs: seq<RtRq>)
    requires forall k :: 0 <= k < |rqs| ==> rqs[k] == RtRq(b.runtime, 0, false, 0)
    ensures Surplus(rqs, b.runtime) == 0
  {
    if rqs != [] {
      BootSurplus(b, rqs[1..]);
    }
  }

  lemma NextConserves(b: Bandwidth, rqs: seq<RtRq>, step: Step)
    requires Conserved(b, rqs) && Fits(b, |rqs|) && Legal(rqs, step)
    ensures Conserved(b, Next(b, rqs, step)) && |Next(b, rqs, step)| == |rqs|
  {
    match step
    case Charging(cpu, delta) => ChargeConserves(b, rqs, cpu, delta);
    case Refilling(cpu, overrun) => TimerConserves(b, rqs, cpu, overrun);
    case Disabling(cpu) => DisableConserves(b, rqs, cpu);
    case Enabling(cpu) => if b.schedulerRunning { EnableConserves(b, rqs, cpu); }
    case TasksChange(cpu, running) => OtherFieldsConserve(b, rqs, cpu, rqs[cpu].(running := running));
  }

  /** In every state of every run the enabled queues hold their number times the allotment,
      and disabling any queue there leaves nothing wanting. */
  lemma {:induction false} RunConserves(b: Bandwidth, states: seq<seq<RtRq>>, steps: seq<Step>, n: nat, me: nat)
    requires IsRun(b, states, steps) && Fits(b, |states[0]|) && n < |states|
    ensures |states[n]| == |states[0]| && Conserved(b, states[n])
    ensures me < |states[n]| ==> Disable(b, states[n], me).1 == 0
    decreases n
  {
    if n == 0 {
      if b.runtime != RUNTIME_INF {
        BootSurplus(b, states[0]);
        SurplusZeroConserves(b, states[0]);
      }
    } else {
      RunConserves(b, states, steps, n - 1, me);
      NextConserves(b, states[n - 1], steps[n - 1]);
    }
    if me < |states[n]| {
      DisableConserves(b, states[n], me);
    }
  }

  /** Why enabling must not hit a borrower: from a conserved state, re-enabling CPU 0 after
      it borrowed 5, then taking CPU 1 down, leaves CPU 0's own disable wanting 5. */
  lemma EnableOfBorrowerReachesBug()
    ensures var b := Bandwidth(10, 100, true, true, true);
            var lent := [RtRq(15, 0, false, 0), RtRq(5, 0, false, 0)];
            var down := Disable(b, Enable(b, lent, 0), 1).0;
            Conserved(b, lent) && |down| == 2 && Disable(b, down, 0).1 == 5
  {
  }

  // ---------------------------------------------------------------------------
  // the code
  // ---------------------------------------------------------------------------

  /** The period timer over the CPUs from `i` on that are in the mask. */
  function TimerFrom(b: Bandwidth, rqs: seq<RtRq>, i: nat, overrun: nat, online: seq<bool>): seq<RtRq>
    requires i <= |rqs| == |online|
    decreases |rqs| - i
  {
    if i == |rqs| then rqs
    else if !online[i] then TimerFrom(b, rqs, i + 1, overrun, online)
    else TimerFrom(b, TimerCpu(b, rqs, i, overrun), i + 1, overrun, online)
  }

  class RootDomain {
    const rq: array<RtRq>
    const b: Bandwidth

    constructor (cpus: nat, b: Bandwidth)
      ensures this.b == b && fresh(rq) && rq.Length == cpus
      ensures forall k :: 0 <= k < cpus ==> rq[k] == RtRq(b.runtime, 0, false, 0)
    {
      this.b := b;
      rq := new RtRq[cpus](_ => RtRq(b.runtime, 0, false, 0));
    }

    method DoBalanceRuntime(me: nat) returns (more: bool)
      requires me < rq.Length
      modifies rq
      ensures (rq[..], more) == LendFrom(old(rq[..]), me, 0, b.period)
      ensures more <==> exists k: nat :: Lends(old(rq[..]), me, k)
      ensures old(rq[me].runtime) <= b.period ==>
        rq[me].runtime == Min(b.period, old(rq[me].runtime) + TotalShares(old(rq[..]), me, 0, rq.Length))
    {
      LendReports(rq[..], me, 0, b.period);
      if rq[me].runtime <= b.period {
        BorrowerGets(rq[..], me, 0, b.period);
      }
      var weight := rq.Length;
      var i: nat := 0;
      more := false;
      while i < rq.Length
        invariant i <= rq.Length
        invariant LendFrom(old(rq[..]), me, 0, b.period).0 == LendFrom(rq[..], me, i, b.period).0
        invariant LendFrom(old(rq[..]), me, 0, b.period).1 == (more || LendFrom(rq[..], me, i, b.period).1)
      {
        if i != me && rq[i].runtime != RUNTIME_INF && rq[i].runtime > rq[i].time {
          var spare := rq[i].runtime - rq[i].time;
          ghost var before := rq[..];
          ShareBounds(rq[me].runtime, spare, b.period, weight);
          var diff: int := spare / weight;
          if rq[me].runtime + diff > b.period {
            diff := b.period - rq[me].runtime;
          }
          rq[i] := rq[i].(runtime := rq[i].runtime - diff);
          rq[me] := rq[me].(runtime := rq[me].runtime + diff);
          assert rq[..] == Transfer(before, i, me, diff);
          more := true;
          if rq[me].runtime == b.period {
            break;
          }
        }
        i := i + 1;
      }
    }

    method BalanceRuntime(me: nat)
      requires me < rq.Length
      modifies rq
      ensures rq[..] == Balance(b, old(rq[..]), me)
      ensures old(rq[me].runtime) <= b.period ==>
        rq[me].runtime == if b.share && Overran(old(rq[me]))
                          then Min(b.period, old(rq[me].runtime) + TotalShares(old(rq[..]), me, 0, rq.Length))
                          else old(rq[me].runtime)
    {
      if b.share && Overran(rq[me]) {
        var _ := DoBalanceRuntime(me);
      }
    }

    /** `__disable_runtime`.  The last assertion of the slow path is the source's BUG_ON. */
    method DisableRuntime(me: nat)
      requires me < rq.Length && Conserved(b, rq[..]) && Fits(b, rq.Length)
      modifies rq
      ensures rq[..] == Disable(b, old(rq[..]), me).0
      ensures Conserved(b, rq[..])
    {
      DisableConserves(b, rq[..], me);
      if !b.schedulerRunning {
        return;
      }
      if rq[me].runtime != RUNTIME_INF && rq[me].runtime != b.runtime {
        ghost var before := rq[..];
        var want: int := b.runtime - rq[me].runtime;
        var i: nat := 0;
        while i < rq.Length
          invariant i <= rq.Length && want != 0
          invariant ReclaimFrom(before, me, 0, b.runtime - before[me].runtime) == ReclaimFrom(rq[..], me, i, want)
        {
          if i != me && rq[i].runtime != RUNTIME_INF {
            if want > 0 {
              var diff := if rq[i].runtime < want then rq[i].runtime else want;
              rq[i] := rq[i].(runtime := rq[i].runtime - diff);
              want := want - diff;
            } else {
              rq[i] := rq[i].(runtime := rq[i].runtime - want);
              want := want - want;
            }
            if want == 0 {
              break;
            }
          }
          i := i + 1;
        }
        assert want == 0;
      }
      rq[me] := rq[me].(runtime := RUNTIME_INF);
    }

    method EnableRuntime(me: nat)
      requires me < rq.Length
      modifies rq
      ensures rq[..] == Enable(b, old(rq[..]), me)
    {
      if b.schedulerRunning {
        rq[me] := rq[me].(runtime := b.runtime, time := 0, throttled := false);
      }
    }

    method SchedRtRuntimeExceeded(me: nat) returns (exceeded: bool)
      requires me < rq.Length
      modifies rq
      ensures rq[..] == RuntimeExceeded(b, old(rq[..]), me)
      ensures exceeded == rq[me].throttled
    {
      if rq[me].throttled {
        return true;
      }
      if rq[me].runtime >= b.period {
        return false;
      }
      BalanceRuntime(me);
      ghost var balanced := rq[..];
      BalanceKeepsFlags(b, old(rq[..]), me, me);
      exceeded := false;
      if Overran(rq[me]) {
        if b.runtime != 0 {
          rq[me] := rq[me].(throttled := true);
        } else {
          rq[me] := rq[me].(time := 0);
        }
        exceeded := rq[me].throttled;
      }
      assert rq[..] == balanced[me := Throttle(b, balanced[me])];
    }

    method UpdateCurrRt(me: nat, delta: nat)
      requires me < rq.Length
      modifies rq
      ensures rq[..] == Charge(b, old(rq[..]), me, delta)
    {
      if b.enabled && rq[me].runtime != RUNTIME_INF {
        rq[me] := rq[me].(time := rq[me].time + delta);
        assert rq[..] == old(rq[..])[me := rq[me]];
        var _ := SchedRtRuntimeExceeded(me);
      }
    }

    /** `do_sched_rt_period_timer`: the timer may stop when it found nothing to do, or when
        bandwidth control is off and nothing is throttled. */
    method DoSchedRtPeriodTimer(overrun: nat, online: seq<bool>) returns (idle: bool)
      requires |online| == rq.Length
      modifies rq
      ensures rq[..] == TimerFrom(b, old(rq[..]), 0, overrun, online)
      ensures idle <==>
              || (forall k :: 0 <= k < rq.Length && online[k] ==> rq[k].time == 0 && rq[k].running == 0)
              || ((!b.enabled || b.runtime == RUNTIME_INF)
                  && forall k :: 0 <= k < rq.Length && online[k] ==> !rq[k].throttled)
    {
      idle := true;
      var throttled := false;
      var i: nat := 0;
      while i < rq.Length
        invariant i <= rq.Length
        invariant TimerFrom(b, rq[..], i, overrun, online) == TimerFrom(b, old(rq[..]), 0, overrun, online)
        invariant idle <==> forall k :: 0 <= k < i && online[k] ==> rq[k].time == 0 && rq[k].running == 0
        invariant throttled <==> exists k :: 0 <= k < i && online[k] && rq[k].throttled
      {
        if online[i] {
          ghost var before := rq[..];
          if rq[i].time != 0 {
            if rq[i].throttled {
              BalanceRuntime(i);
              forall k | 0 <= k < rq.Length { BalanceKeepsFlags(b, before, i, k); }
            }
            ghost var balanced := rq[..];
            var runtime := rq[i].runtime;
            rq[i] := rq[i].(time := rq[i].time - Refund(rq[i], overrun));
            if rq[i].throttled && rq[i].time < runtime {
              rq[i] := rq[i].(throttled := false);
            }
            assert rq[..] == balanced[i := Refill(balanced[i], overrun)];
            if rq[i].time != 0 || rq[i].running != 0 {
              idle := false;
            }
          } else if rq[i].running != 0 {
            idle := false;
          }
          assert rq[..] == TimerCpu(b, before, i, overrun);
          if rq[i].throttled {
            throttled := true;
          }
        }
        i := i + 1;
      }
      if !throttled && (!b.enabled || b.runtime == RUNTIME_INF) {
        idle := true;
      }
    }
  }

  /** Borrowing moves runtime only. */
  lemma {:induction false} LendKeepsFlags(rqs: seq<RtRq>, me: nat, i: nat, period: nat, k: nat)
    requires me < |rqs| && i <= |rqs| && k < |rqs|
    ensures var q := LendFrom(rqs, me, i, period).0[k];
            q.time == rqs[k].time && q.throttled == rqs[k].throttled && q.running == rqs[k].running
    decreases |rqs| - i
  {
    hide Share;
    if i == |rqs| {
    } else if i == me || rqs[i].runtime == RUNTIME_INF || rqs[i].runtime <= rqs[i].time {
      LendKeepsFlags(rqs, me, i + 1, period, k);
    } else {
      var spare := rqs[i].runtime - rqs[i].time;
      ShareBounds(rqs[me].runtime, spare, period, |rqs|);
      LendKeepsFlags(Transfer(rqs, i, me, Share(rqs[me].runtime, spare, period, |rqs|)), me, i + 1, period, k);
    }
  }

  lemma BalanceKeepsFlags(b: Bandwidth, rqs: seq<RtRq>, me: nat, k: nat)
    requires me < |rqs| && k < |rqs|
    ensures var q := Balance(b, rqs, me)[k];
            q.time == rqs[k].time && q.throttled == rqs[k].throttled && q.running == rqs[k].running
  {
    LendKeepsFlags(rqs, me, 0, b.period, k);
  }
}
