/** The throttling ledger of one RT queue that neither lends nor borrows. */
module RtLedger {
  import opened RtBandwidth

  /** A settled configuration: sharing off, control on, allotment below the period. */
  predicate Capped(b: Bandwidth, q: RtRq) {
    b.enabled && !b.share && b.runtime != 0 && 0 < q.runtime < b.period && q.runtime < RUNTIME_INF
  }

  datatype Event = Ran(delta: nat) | Timer(overrun: nat)

  /** One event, by the same code as the multi-CPU model runs. */
  function After(b: Bandwidth, q: RtRq, e: Event): RtRq {
    match e
    case Ran(delta) => Charge(b, [q], 0, delta)[0]
    case Timer(overrun) => TimerCpu(b, [q], 0, overrun)[0]
  }

  function Final(b: Bandwidth, q: RtRq, events: seq<Event>): RtRq
    decreases |events|
  {
    if events == [] then q else Final(b, After(b, q, events[0]), events[1..])
  }

  function Charged(events: seq<Event>): nat {
    if events == [] then 0 else (if events[0].Ran? then events[0].delta else 0) + Charged(events[1..])
  }

  function Refunded(b: Bandwidth, q: RtRq, events: seq<Event>): nat
    decreases |events|
  {
    if events == [] then 0
    else (if events[0].Timer? then Refund(q, events[0].overrun) else 0) + Refunded(b, After(b, q, events[0]), events[1..])
  }

  function Periods(events: seq<Event>): nat {
    if events == [] then 0 else (if events[0].Timer? then events[0].overrun else 0) + Periods(events[1..])
  }

  predicate DeltasAtMost(events: seq<Event>, largest: nat) {
    forall i :: 0 <= i < |events| && events[i].Ran? ==> events[i].delta <= largest
  }

  /** No RT task runs on the queue while it is throttled. */
  predicate QuietWhileThrottled(b: Bandwidth, q: RtRq, events: seq<Event>)
    decreases |events|
  {
    events == [] || ((q.throttled ==> !events[0].Ran?) && QuietWhileThrottled(b, After(b, q, events[0]), events[1..]))
  }

  /** Throttled exactly when the used time is beyond what one allotment allows. */
  predicate Consistent(q: RtRq) {
    if q.throttled then q.time >= q.runtime else q.time <= q.runtime
  }

  lemma AfterStep(b: Bandwidth, q: RtRq, e: Event)
    requires Capped(b, q)
    ensures Capped(b, After(b, q, e)) && After(b, q, e).runtime == q.runtime
    ensures Consistent(q) ==> Consistent(After(b, q, e))
    ensures e.Ran? ==> After(b, q, e).time == q.time + e.delta
    ensures e.Timer? ==> After(b, q, e).time == q.time - Refund(q, e.overrun)
  {
  }

  /** Nothing is lost: what was charged is either still on the queue or was refunded; and
      throttled implies a full allotment is used up. */
  lemma {:induction false} LedgerBalances(b: Bandwidth, q: RtRq, events: seq<Event>)
    requires Capped(b, q) && Consistent(q)
    ensures q.time + Charged(events) == Final(b, q, events).time + Refunded(b, q, events)
    ensures Consistent(Final(b, q, events)) && Final(b, q, events).runtime == q.runtime
    decreases |events|
  {
    if events != [] {
      AfterStep(b, q, events[0]);
      LedgerBalances(b, After(b, q, events[0]), events[1..]);
    }
  }

  /** Room left before a queue at time `time` can be stopped by one last delta. */
  function Headroom(q: RtRq, largest: nat): nat {
    if q.time <= q.runtime + largest then q.runtime + largest - q.time else 0
  }

  lemma {:induction false} ChargedWithinHeadroom(b: Bandwidth, q: RtRq, events: seq<Event>, largest: nat)
    requires Capped(b, q) && Consistent(q) && DeltasAtMost(events, largest) && QuietWhileThrottled(b, q, events)
    ensures Charged(events) <= Periods(events) * q.runtime + Headroom(q, largest)
    decreases |events|
  {
    if events != [] {
      var q', rest := After(b, q, events[0]), events[1..];
      AfterStep(b, q, events[0]);
      assert forall i :: 0 <= i < |rest| ==> rest[i] == events[i + 1];
      ChargedWithinHeadroom(b, q', rest, largest);
      if events[0].Timer? {
        SplitPeriods(events[0].overrun, Periods(rest), q.runtime);
      }
    }
  }

  lemma SplitPeriods(m: nat, n: nat, k: nat)
    ensures (m + n) * k == m * k + n * k
  {
  }

  /** RT work over `K` periods is at most `K + 1` allotments and one largest delta. */
  lemma ThrottlingCaps(b: Bandwidth, q: RtRq, events: seq<Event>, largest: nat)
    requires Capped(b, q) && Consistent(q) && DeltasAtMost(events, largest) && QuietWhileThrottled(b, q, events)
    ensures Charged(events) <= (Periods(events) + 1) * q.runtime + largest
  {
    ChargedWithinHeadroom(b, q, events, largest);
    SplitPeriods(Periods(events), 1, q.runtime);
  }

  /** `k` single-period firings with no charge in between. */
  function Firings(b: Bandwidth, q: RtRq, k: nat): RtRq {
    if k == 0 then q else After(b, Firings(b, q, k - 1), Timer(1))
  }

  /** A throttled queue recovers at firing number `floor(time / runtime)`, and not before. */
  lemma {:induction false} RecoversExactlyAt(b: Bandwidth, q: RtRq, k: nat)
    requires Capped(b, q) && Consistent(q) && q.throttled
    ensures Capped(b, Firings(b, q, k)) && Firings(b, q, k).runtime == q.runtime
    ensures Firings(b, q, k).throttled <==> q.time - k * q.runtime >= q.runtime
    ensures Firings(b, q, k).throttled <==> k < q.time / q.runtime
    ensures Firings(b, q, k).throttled ==> Firings(b, q, k).time == q.time - k * q.runtime
  {
    if k > 0 {
      RecoversExactlyAt(b, q, k - 1);
      AfterStep(b, Firings(b, q, k - 1), Timer(1));
      SplitPeriods(k - 1, 1, q.runtime);
    }
    QuotientAtLeast(q.time, q.runtime, k + 1);
    SplitPeriods(k, 1, q.runtime);
  }

  lemma QuotientAtLeast(v: nat, d: nat, k: nat)
    requires d > 0
    ensures v / d >= k <==> v >= k * d
  {
    var q, r := v / d, v % d;
    assert v == q * d + r;
    if q >= k {
      assert q * d >= k * d;
    } else {
      assert q + 1 <= k;
      assert (q + 1) * d <= k * d;
    }
  }
}
