/** The burger shop: cooks, cashiers and customers that synchronise through semaphores.

    Each thread is a program counter; a step is one semaphore operation, or the update of
    the leave counter.  A `printf` belongs to the `sem_wait(&mutex_print)` before it.

    Cook       0 wait empty_rack   1 wait mutex_rack   2 wait mutex_print
               3 post mutex_print  4 post mutex_rack   5 post burger_num, back to 0
    Cashier    0 wait order_num    1 wait mutex_print  2 post mutex_print  3 wait burger_num
               4 wait mutex_rack   5 wait mutex_print  6 post mutex_print  7 post provide_num
               8 post empty_rack   9 post mutex_rack, back to 0
    Customer   0 wait mutex_entry  1 wait mutex_print  2 post mutex_print  3 post order_num
               4 post mutex_entry  5 wait provide_num  6 wait mutex_leave
               7 count as left     8 post mutex_leave  9 gone */
module BurgerBuddies {

  datatype Thread = Cook(id: nat) | Cashier(id: nat) | Customer(id: nat)

  datatype Shop = Shop(
    rackNum: nat,
    mutexPrint: nat, mutexRack: nat, mutexEntry: nat, mutexLeave: nat,
    emptyRack: nat, burgerNum: nat, orderNum: nat, provideNum: nat,
    leftNum: nat, terminateSignal: bool,
    cooks: seq<nat>, cashiers: seq<nat>, customers: seq<nat>,
    burgersMade: nat)

  /** The state after `semaphore_init` and thread creation. */
  function Open(cookNum: nat, cashierNum: nat, custNum: nat, rackNum: nat): Shop {
    Shop(rackNum, 1, 1, 1, 1, rackNum, 0, 0, 0, 0, false,
         seq(cookNum, _ => 0), seq(cashierNum, _ => 0), seq(custNum, _ => 0), 0)
  }

  predicate Exists(s: Shop, t: Thread) {
    match t
    case Cook(id) => id < |s.cooks| && s.cooks[id] <= 5
    case Cashier(id) => id < |s.cashiers| && s.cashiers[id] <= 9
    case Customer(id) => id < |s.customers| && s.customers[id] <= 9
  }

  /** Whether a thread can take its next step: `sem_wait` blocks on zero. */
  predicate Enabled(s: Shop, t: Thread)
    requires Exists(s, t)
  {
    match t
    case Cook(id) =>
      var pc := s.cooks[id];
      (pc == 0 ==> s.emptyRack > 0) && (pc == 1 ==> s.mutexRack > 0) && (pc == 2 ==> s.mutexPrint > 0)
    case Cashier(id) =>
      var pc := s.cashiers[id];
      (pc == 0 ==> s.orderNum > 0) && (pc == 1 || pc == 5 ==> s.mutexPrint > 0) &&
      (pc == 3 ==> s.burgerNum > 0) && (pc == 4 ==> s.mutexRack > 0)
    case Customer(id) =>
      var pc := s.customers[id];
      (pc == 0 ==> s.mutexEntry > 0) && (pc == 1 ==> s.mutexPrint > 0) &&
      (pc == 5 ==> s.provideNum > 0) && (pc == 6 ==> s.mutexLeave > 0) && pc != 9
  }

  function CookStep(s: Shop, id: nat): Shop
    requires Exists(s, Cook(id)) && Enabled(s, Cook(id))
  {
    var pc := s.cooks[id];
    if pc == 0 then s.(emptyRack := s.emptyRack - 1, cooks := s.cooks[id := 1])
    else if pc == 1 then s.(mutexRack := s.mutexRack - 1, cooks := s.cooks[id := 2])
    else if pc == 2 then s.(mutexPrint := s.mutexPrint - 1, burgersMade := s.burgersMade + 1, cooks := s.cooks[id := 3])
    else if pc == 3 then s.(mutexPrint := s.mutexPrint + 1, cooks := s.cooks[id := 4])
    else if pc == 4 then s.(mutexRack := s.mutexRack + 1, cooks := s.cooks[id := 5])
    else s.(burgerNum := s.burgerNum + 1, cooks := s.cooks[id := 0])
  }

  function CashierStep(s: Shop, id: nat): Shop
    requires Exists(s, Cashier(id)) && Enabled(s, Cashier(id))
  {
    var pc := s.cashiers[id];
    if pc == 0 then s.(orderNum := s.orderNum - 1, cashiers := s.cashiers[id := 1])
    else if pc == 1 then s.(mutexPrint := s.mutexPrint - 1, cashiers := s.cashiers[id := 2])
    else if pc == 2 then s.(mutexPrint := s.mutexPrint + 1, cashiers := s.cashiers[id := 3])
    else if pc == 3 then s.(burgerNum := s.burgerNum - 1, cashiers := s.cashiers[id := 4])
    else if pc == 4 then s.(mutexRack := s.mutexRack - 1, cashiers := s.cashiers[id := 5])
    else if pc == 5 then s.(mutexPrint := s.mutexPrint - 1, cashiers := s.cashiers[id := 6])
    else if pc == 6 then s.(mutexPrint := s.mutexPrint + 1, cashiers := s.cashiers[id := 7])
    else if pc == 7 then s.(provideNum := s.provideNum + 1, cashiers := s.cashiers[id := 8])
    else if pc == 8 then s.(emptyRack := s.emptyRack + 1, cashiers := s.cashiers[id := 9])
    else s.(mutexRack := s.mutexRack + 1, cashiers := s.cashiers[id := 0])
  }

  function CustomerStep(s: Shop, id: nat): Shop
    requires Exists(s, Customer(id)) && Enabled(s, Customer(id))
  {
    var pc := s.customers[id];
    var s' := s.(customers := s.customers[id := pc + 1]);
    if pc == 0 then s'.(mutexEntry := s.mutexEntry - 1)
    else if pc == 1 then s'.(mutexPrint := s.mutexPrint - 1)
    else if pc == 2 then s'.(mutexPrint := s.mutexPrint + 1)
    else if pc == 3 then s'.(orderNum := s.orderNum + 1)
    else if pc == 4 then s'.(mutexEntry := s.mutexEntry + 1)
    else if pc == 5 then s'.(provideNum := s.provideNum - 1)
    else if pc == 6 then s'.(mutexLeave := s.mutexLeave - 1)
    else if pc == 7 then s'.(leftNum := s.leftNum + 1,
                             terminateSignal := s.terminateSignal || s.leftNum + 1 == |s.customers|)
    else s'.(mutexLeave := s.mutexLeave + 1)
  }

  function Next(s: Shop, t: Thread): Shop
    requires Exists(s, t) && Enabled(s, t)
  {
    match t
    case Cook(id) => CookStep(s, id)
    case Cashier(id) => CashierStep(s, id)
    case Customer(id) => CustomerStep(s, id)
  }

  // ---------------------------------------------------------------------------
  // counting threads by program counter
  // ---------------------------------------------------------------------------

  /** How many threads are between program counters `lo` and `hi`. */
  function Count(pcs: seq<nat>, lo: nat, hi: nat): nat {
    if pcs == [] then 0 else (if lo <= pcs[0] <= hi then 1 else 0) + Count(pcs[1..], lo, hi)
  }

  function PcSum(pcs: seq<nat>): nat {
    if pcs == [] then 0 else pcs[0] + PcSum(pcs[1..])
  }

  function One(pc: nat, lo: nat, hi: nat): nat {
    if lo <= pc <= hi then 1 else 0
  }

  lemma {:induction false} CountUpdate(pcs: seq<nat>, id: nat, pc: nat, lo: nat, hi: nat)
    requires id < |pcs|
    ensures Count(pcs[id := pc], lo, hi) == Count(pcs, lo, hi) - One(pcs[id], lo, hi) + One(pc, lo, hi)
  {
    if id == 0 {
      assert pcs[id := pc][1..] == pcs[1..];
    } else {
      assert pcs[id := pc][1..] == pcs[1..][id - 1 := pc];
      CountUpdate(pcs[1..], id - 1, pc, lo, hi);
    }
  }

  lemma {:induction false} PcSumUpdate(pcs: seq<nat>, id: nat, pc: nat)
    requires id < |pcs|
    ensures PcSum(pcs[id := pc]) == PcSum(pcs) - pcs[id] + pc
  {
    if id == 0 {
      assert pcs[id := pc][1..] == pcs[1..];
    } else {
      assert pcs[id := pc][1..] == pcs[1..][id - 1 := pc];
      PcSumUpdate(pcs[1..], id - 1, pc);
    }
  }

  /** A nonzero count has a witness. */
  lemma {:induction false} CountWitness(pcs: seq<nat>, lo: nat, hi: nat) returns (id: nat)
    requires Count(pcs, lo, hi) > 0
    ensures id < |pcs| && lo <= pcs[id] <= hi
  {
    if lo <= pcs[0] <= hi {
      id := 0;
    } else {
      id := CountWitness(pcs[1..], lo, hi);
      id := id + 1;
    }
  }

  lemma {:induction false} CountAll(pcs: seq<nat>, lo: nat, hi: nat)
    ensures Count(pcs, lo, hi) <= |pcs|
    ensures Count(pcs, lo, hi) == |pcs| <==> forall id :: 0 <= id < |pcs| ==> lo <= pcs[id] <= hi
    ensures Count(pcs, lo, hi) == 0 <==> forall id :: 0 <= id < |pcs| ==> !(lo <= pcs[id] <= hi)
  {
    if pcs != [] {
      CountAll(pcs[1..], lo, hi);
      var rest := pcs[1..];
      assert forall id :: 0 < id < |pcs| ==> pcs[id] == rest[id - 1];
      assert forall id :: 0 <= id < |rest| ==> rest[id] == pcs[id + 1];
    }
  }

  lemma {:induction false} CountSplit(pcs: seq<nat>, lo: nat, mid: nat, hi: nat)
    requires lo <= mid < hi
    ensures Count(pcs, lo, hi) == Count(pcs, lo, mid) + Count(pcs, mid + 1, hi)
  {
    if pcs != [] {
      CountSplit(pcs[1..], lo, mid, hi);
    }
  }

  /** Program counters weigh at most `hi` each, and only the threads past 0 weigh. */
  lemma {:induction false} PcSumBound(pcs: seq<nat>, hi: nat)
    requires forall id :: 0 <= id < |pcs| ==> pcs[id] <= hi
    ensures PcSum(pcs) <= hi * Count(pcs, 1, hi)
  {
    if pcs != [] {
      PcSumBound(pcs[1..], hi);
      if pcs[0] >= 1 {
        assert hi * Count(pcs, 1, hi) == hi + hi * Count(pcs[1..], 1, hi);
      }
    }
  }

  // ---------------------------------------------------------------------------
  // what every step keeps
  // ---------------------------------------------------------------------------

  predicate PcsInRange(s: Shop) {
    && (forall id :: 0 <= id < |s.cooks| ==> s.cooks[id] <= 5)
    && (forall id :: 0 <= id < |s.cashiers| ==> s.cashiers[id] <= 9)
    && (forall id :: 0 <= id < |s.customers| ==> s.customers[id] <= 9)
  }

  /** Each mutex is free or held by exactly one thread. */
  predicate MutexesHeldOnce(s: Shop) {
    && s.mutexPrint + Count(s.cooks, 3, 3) + Count(s.cashiers, 2, 2) + Count(s.cashiers, 6, 6) + Count(s.customers, 2, 2) == 1
    && s.mutexRack + Count(s.cooks, 2, 4) + Count(s.cashiers, 5, 9) == 1
    && s.mutexEntry + Count(s.customers, 1, 4) == 1
    && s.mutexLeave + Count(s.customers, 7, 8) == 1
  }

  /** Every rack slot is empty, being filled, full or being emptied. */
  predicate SlotsConserved(s: Shop) {
    s.emptyRack + Count(s.cooks, 1, 5) + s.burgerNum + Count(s.cashiers, 4, 8) == s.rackNum
  }

  /** Orders taken by cashiers and already answered. */
  function Answered(s: Shop): nat {
    s.provideNum + Count(s.customers, 6, 9)
  }

  /** Every order is waiting, with a cashier, or answered. */
  predicate OrdersConserved(s: Shop) {
    s.orderNum + Count(s.cashiers, 1, 7) + Answered(s) == Count(s.customers, 4, 9)
  }

  /** Every burger made is on its way to the rack, on it, with a cashier, or handed over. */
  predicate BurgersConserved(s: Shop) {
    s.burgersMade == Count(s.cooks, 3, 5) + s.burgerNum + Count(s.cashiers, 4, 7) + Answered(s)
  }

  predicate LeaversCounted(s: Shop) {
    && s.leftNum == Count(s.customers, 8, 9)
    && (s.terminateSignal <==> s.leftNum == |s.customers|)
  }

  predicate Inv(s: Shop) {
    && PcsInRange(s) && |s.customers| > 0
    && MutexesHeldOnce(s) && SlotsConserved(s) && OrdersConserved(s) && BurgersConserved(s) && LeaversCounted(s)
  }

  lemma OpenInv(cookNum: nat, cashierNum: nat, custNum: nat, rackNum: nat)
    requires custNum > 0
    ensures Inv(Open(cookNum, cashierNum, custNum, rackNum))
  {
    var s := Open(cookNum, cashierNum, custNum, rackNum);
    NoneInRange(s.cooks, 1, 5);
    NoneInRange(s.cashiers, 1, 9);
    NoneInRange(s.customers, 1, 9);
  }

  lemma NoneInRange(pcs: seq<nat>, lo: nat, hi: nat)
    requires forall id :: 0 <= id < |pcs| ==> !(lo <= pcs[id] <= hi)
    ensures forall lo': nat, hi': nat :: lo <= lo' && hi' <= hi ==> Count(pcs, lo', hi') == 0
  {
  }

  lemma CookInv(s: Shop, id: nat)
    requires Inv(s) && Exists(s, Cook(id)) && Enabled(s, Cook(id))
    ensures Inv(CookStep(s, id))
  {
    hide Count, PcSum;
    var pc := CookStep(s, id).cooks[id];
    CountUpdate(s.cooks, id, pc, 3, 3);
    CountUpdate(s.cooks, id, pc, 2, 4);
    CountUpdate(s.cooks, id, pc, 1, 5);
    CountUpdate(s.cooks, id, pc, 3, 5);
  }

  lemma CashierInv(s: Shop, id: nat)
    requires Inv(s) && Exists(s, Cashier(id)) && Enabled(s, Cashier(id))
    ensures Inv(CashierStep(s, id))
  {
    hide Count, PcSum;
    var pc := CashierStep(s, id).cashiers[id];
    CountUpdate(s.cashiers, id, pc, 2, 2);
    CountUpdate(s.cashiers, id, pc, 6, 6);
    CountUpdate(s.cashiers, id, pc, 5, 9);
    CountUpdate(s.cashiers, id, pc, 4, 8);
    CountUpdate(s.cashiers, id, pc, 1, 7);
    CountUpdate(s.cashiers, id, pc, 4, 7);
  }

  lemma CustomerInv(s: Shop, id: nat)
    requires Inv(s) && Exists(s, Customer(id)) && Enabled(s, Customer(id))
    ensures Inv(CustomerStep(s, id))
  {
    hide Count, PcSum;
    var pc := CustomerStep(s, id).customers[id];
    CountUpdate(s.customers, id, pc, 2, 2);
    CountUpdate(s.customers, id, pc, 1, 4);
    CountUpdate(s.customers, id, pc, 7, 8);
    CountUpdate(s.customers, id, pc, 6, 9);
    CountUpdate(s.customers, id, pc, 4, 9);
    CountUpdate(s.customers, id, pc, 8, 9);
    CountAll(CustomerStep(s, id).customers, 8, 9);
  }

  lemma NextInv(s: Shop, t: Thread)
    requires Inv(s) && Exists(s, t) && Enabled(s, t)
    ensures Inv(Next(s, t))
    ensures Next(s, t).rackNum == s.rackNum && |Next(s, t).cooks| == |s.cooks|
    ensures |Next(s, t).cashiers| == |s.cashiers| && |Next(s, t).customers| == |s.customers|
  {
    hide Inv;
    match t
    case Cook(id) => CookInv(s, id);
    case Cashier(id) => CashierInv(s, id);
    case Customer(id) => CustomerInv(s, id);
  }

  // ---------------------------------------------------------------------------
  // every step is progress
  // ---------------------------------------------------------------------------

  /** Orders a cashier has taken up, and cook rounds that were started. */
  function Accepted(s: Shop): nat {
    Count(s.cashiers, 1, 7) + Answered(s)
  }

  function Started(s: Shop): nat {
    Count(s.cooks, 1, 5) + s.burgerNum + Count(s.cashiers, 4, 7) + Answered(s)
  }

  /** The steps still to come: 9 per customer, 10 per order, 6 per burger, less those of the
      rounds under way. */
  function StepsLeft(s: Shop): int {
    9 * |s.customers| - PcSum(s.customers)
    + 10 * (|s.customers| - Accepted(s)) + 10 * Count(s.cashiers, 1, 9) - PcSum(s.cashiers)
    + 6 * (|s.customers| + s.rackNum - Started(s)) + 6 * Count(s.cooks, 1, 5) - PcSum(s.cooks)
  }

  lemma StepsLeftBounded(s: Shop)
    requires Inv(s)
    ensures StepsLeft(s) >= 0
  {
    CountAll(s.customers, 4, 9);
    CountSplit(s.cashiers, 4, 7, 8);
    CountAll(s.customers, 1, 9);
    PcSumBound(s.customers, 9);
    PcSumBound(s.cashiers, 9);
    PcSumBound(s.cooks, 5);
  }

  lemma CookProgress(s: Shop, id: nat)
    requires Exists(s, Cook(id)) && Enabled(s, Cook(id))
    ensures StepsLeft(CookStep(s, id)) == StepsLeft(s) - 1
  {
    hide Count, PcSum;
    var s' := CookStep(s, id);
    var pc, pc' := s.cooks[id], s'.cooks[id];
    CountUpdate(s.cooks, id, pc', 1, 5);
    PcSumUpdate(s.cooks, id, pc');
    assert s'.customers == s.customers && s'.cashiers == s.cashiers && s'.rackNum == s.rackNum;
    assert Accepted(s') == Accepted(s);
    assert Started(s') == Started(s) + (if pc == 0 then 1 else 0);
    hide Accepted, Started, CookStep;
  }

  lemma CashierProgress(s: Shop, id: nat)
    requires Exists(s, Cashier(id)) && Enabled(s, Cashier(id))
    ensures StepsLeft(CashierStep(s, id)) == StepsLeft(s) - 1
  {
    hide Count, PcSum;
    var s' := CashierStep(s, id);
    var pc, pc' := s.cashiers[id], s'.cashiers[id];
    CountUpdate(s.cashiers, id, pc', 1, 9);
    CountUpdate(s.cashiers, id, pc', 1, 7);
    CountUpdate(s.cashiers, id, pc', 4, 7);
    PcSumUpdate(s.cashiers, id, pc');
    assert s'.customers == s.customers && s'.cooks == s.cooks && s'.rackNum == s.rackNum;
    assert Accepted(s') == Accepted(s) + (if pc == 0 then 1 else 0);
    assert Started(s') == Started(s);
    hide Accepted, Started, CashierStep;
  }

  lemma CustomerProgress(s: Shop, id: nat)
    requires Exists(s, Customer(id)) && Enabled(s, Customer(id))
    ensures StepsLeft(CustomerStep(s, id)) == StepsLeft(s) - 1
  {
    hide Count, PcSum;
    var s' := CustomerStep(s, id);
    CountUpdate(s.customers, id, s'.customers[id], 6, 9);
    PcSumUpdate(s.customers, id, s'.customers[id]);
    assert s'.cashiers == s.cashiers && s'.cooks == s.cooks && s'.rackNum == s.rackNum;
    assert Accepted(s') == Accepted(s) && Started(s') == Started(s);
    hide Accepted, Started, CustomerStep;
  }

  /** Whichever thread moves, exactly one step fewer is left: no fairness is needed. */
  lemma StepsLeftDecreases(s: Shop, t: Thread)
    requires Exists(s, t) && Enabled(s, t)
    ensures StepsLeft(Next(s, t)) == StepsLeft(s) - 1
  {
    hide StepsLeft;
    match t
    case Cook(id) => CookProgress(s, id);
    case Cashier(id) => CashierProgress(s, id);
    case Customer(id) => CustomerProgress(s, id);
  }

  // ---------------------------------------------------------------------------
  // no deadlock
  // ---------------------------------------------------------------------------

  /** No thread can move. */
  predicate Stuck(s: Shop) {
    && (forall id :: 0 <= id < |s.cooks| && Exists(s, Cook(id)) ==> !Enabled(s, Cook(id)))
    && (forall id :: 0 <= id < |s.cashiers| && Exists(s, Cashier(id)) ==> !Enabled(s, Cashier(id)))
    && (forall id :: 0 <= id < |s.customers| && Exists(s, Customer(id)) ==> !Enabled(s, Customer(id)))
  }

  /** Every customer served and gone, everyone else waiting for work, the rack full, and
      exactly one burger made per customer and per slot. */
  predicate ShopDone(s: Shop) {
    && (forall id :: 0 <= id < |s.cooks| ==> s.cooks[id] == 0)
    && (forall id :: 0 <= id < |s.cashiers| ==> s.cashiers[id] == 0)
    && (forall id :: 0 <= id < |s.customers| ==> s.customers[id] == 9)
    && s.leftNum == |s.customers| && s.terminateSignal
    && s.emptyRack == 0 && s.burgerNum == s.rackNum
    && s.burgersMade == |s.customers| + s.rackNum
  }

  /** Where blocked threads can be: only at a `sem_wait`. */
  lemma StuckAtWaits(s: Shop)
    requires PcsInRange(s) && Stuck(s)
    ensures Count(s.cooks, 3, 5) == 0
    ensures Count(s.cashiers, 2, 2) == 0 && Count(s.cashiers, 6, 9) == 0
    ensures Count(s.customers, 2, 4) == 0 && Count(s.customers, 7, 8) == 0
    ensures s.mutexPrint > 0 ==> Count(s.cooks, 2, 2) == 0 && Count(s.cashiers, 5, 5) == 0 && Count(s.customers, 1, 1) == 0
  {
    forall id | 0 <= id < |s.cooks| ensures s.cooks[id] <= 2 && (s.mutexPrint > 0 ==> s.cooks[id] != 2) {
      assert Exists(s, Cook(id));
    }
    forall id | 0 <= id < |s.cashiers|
      ensures s.cashiers[id] != 2 && s.cashiers[id] <= 5 && (s.mutexPrint > 0 ==> s.cashiers[id] != 5)
    {
      assert Exists(s, Cashier(id));
    }
    forall id | 0 <= id < |s.customers|
      ensures var pc := s.customers[id]; !(2 <= pc <= 4) && !(7 <= pc <= 8) && (s.mutexPrint > 0 ==> pc != 1)
    {
      assert Exists(s, Customer(id));
    }
    CountAll(s.cooks, 3, 5);
    CountAll(s.cooks, 2, 2);
    CountAll(s.cashiers, 2, 2);
    CountAll(s.cashiers, 6, 9);
    CountAll(s.cashiers, 5, 5);
    CountAll(s.customers, 2, 4);
    CountAll(s.customers, 7, 8);
    CountAll(s.customers, 1, 1);
  }

  /** The holder of a mutex always gets to release it. */
  lemma StuckFreesMutexes(s: Shop)
    requires Inv(s) && Stuck(s)
    ensures s.mutexPrint == 1 && s.mutexRack == 1 && s.mutexEntry == 1 && s.mutexLeave == 1
  {
    hide Count;
    StuckAtWaits(s);
    CountSplit(s.cooks, 3, 3, 5);
    CountSplit(s.cooks, 3, 4, 5);
    CountSplit(s.cooks, 2, 2, 4);
    CountSplit(s.cashiers, 6, 6, 9);
    CountSplit(s.cashiers, 5, 5, 9);
    CountSplit(s.customers, 2, 2, 4);
    CountSplit(s.customers, 1, 1, 4);
  }

  /** With at least one cook, one cashier, and one slot, the only blocked state is the end. */
  lemma StuckMeansDone(s: Shop)
    requires Inv(s) && Stuck(s) && |s.cooks| > 0 && |s.cashiers| > 0 && s.rackNum > 0
    ensures ShopDone(s)
  {
    StuckFreesMutexes(s);
    forall id | 0 <= id < |s.cooks| ensures s.cooks[id] == 0 && s.emptyRack == 0 {
      assert !Enabled(s, Cook(id));
    }
    assert s.cooks[0] == 0 && s.emptyRack == 0;
    NoneInRange(s.cooks, 1, 5);
    forall id | 0 <= id < |s.cashiers| ensures s.cashiers[id] == 0 || (s.cashiers[id] == 3 && s.burgerNum == 0) {
      assert !Enabled(s, Cashier(id));
    }
    CountAll(s.cashiers, 4, 8);
    assert s.burgerNum == s.rackNum;
    assert s.cashiers[0] == 0;
    assert !Enabled(s, Cashier(0));
    NoneInRange(s.cashiers, 1, 9);
    forall id | 0 <= id < |s.customers| ensures (s.customers[id] == 5 && s.provideNum == 0) || s.customers[id] == 9 {
      assert !Enabled(s, Customer(id));
    }
    CountAll(s.customers, 4, 9);
    assert Answered(s) == |s.customers|;
    CountAll(s.customers, 6, 9);
    CountAll(s.customers, 8, 9);
  }

  // ---------------------------------------------------------------------------
  // whole runs
  // ---------------------------------------------------------------------------

  /** `schedule` can be run from `s`: each thread it names is enabled in its turn. */
  predicate Runs(s: Shop, schedule: seq<Thread>)
    decreases |schedule|
  {
    schedule == [] || (Exists(s, schedule[0]) && Enabled(s, schedule[0]) && Runs(Next(s, schedule[0]), schedule[1..]))
  }

  function RunFrom(s: Shop, schedule: seq<Thread>): Shop
    requires Runs(s, schedule)
    decreases |schedule|
  {
    if schedule == [] then s else RunFrom(Next(s, schedule[0]), schedule[1..])
  }

  lemma {:induction false} RunInv(s: Shop, schedule: seq<Thread>)
    requires Inv(s) && Runs(s, schedule)
    ensures Inv(RunFrom(s, schedule))
    ensures StepsLeft(RunFrom(s, schedule)) == StepsLeft(s) - |schedule|
    ensures var e := RunFrom(s, schedule);
            e.rackNum == s.rackNum && |e.cooks| == |s.cooks| && |e.cashiers| == |s.cashiers| && |e.customers| == |s.customers|
    decreases |schedule|
  {
    if schedule != [] {
      NextInv(s, schedule[0]);
      StepsLeftDecreases(s, schedule[0]);
      RunInv(Next(s, schedule[0]), schedule[1..]);
    }
  }

  lemma {:induction false} ZeroPcSum(pcs: seq<nat>, pc: nat)
    requires forall id :: 0 <= id < |pcs| ==> pcs[id] == pc
    ensures PcSum(pcs) == pc * |pcs|
  {
    if pcs != [] {
      ZeroPcSum(pcs[1..], pc);
      assert pc * |pcs| == pc + pc * |pcs[1..]|;
    }
  }

  lemma DoneHasNoStepsLeft(s: Shop)
    requires Inv(s) && ShopDone(s)
    ensures StepsLeft(s) == 0
  {
    ZeroPcSum(s.cooks, 0);
    ZeroPcSum(s.cashiers, 0);
    ZeroPcSum(s.customers, 9);
    NoneInRange(s.cooks, 1, 5);
    NoneInRange(s.cashiers, 1, 9);
    CountAll(s.customers, 4, 9);
  }

  /** Under any scheduling, without fairness, the shop runs for at most 25 steps per customer
      and 6 per slot.  A run that can go no further took exactly that many, and has served
      everybody. */
  lemma EveryRunFinishes(cookNum: nat, cashierNum: nat, custNum: nat, rackNum: nat, schedule: seq<Thread>)
    requires cookNum > 0 && cashierNum > 0 && custNum > 0 && rackNum > 0
    requires Runs(Open(cookNum, cashierNum, custNum, rackNum), schedule)
    ensures |schedule| <= 25 * custNum + 6 * rackNum
    ensures var e := RunFrom(Open(cookNum, cashierNum, custNum, rackNum), schedule);
            && (Stuck(e) <==> |schedule| == 25 * custNum + 6 * rackNum)
            && (Stuck(e) ==> ShopDone(e) && e.leftNum == custNum && e.burgersMade == custNum + rackNum)
  {
    var s := Open(cookNum, cashierNum, custNum, rackNum);
    OpenInv(cookNum, cashierNum, custNum, rackNum);
    ZeroPcSum(s.cooks, 0);
    ZeroPcSum(s.cashiers, 0);
    ZeroPcSum(s.customers, 0);
    NoneInRange(s.cooks, 1, 5);
    NoneInRange(s.cashiers, 1, 9);
    NoneInRange(s.customers, 1, 9);
    assert StepsLeft(s) == 25 * custNum + 6 * rackNum;
    RunInv(s, schedule);
    var e := RunFrom(s, schedule);
    StepsLeftBounded(e);
    if Stuck(e) {
      StuckMeansDone(e);
      DoneHasNoStepsLeft(e);
    } else {
      StuckOrProgress(e);
    }
  }

  /** A state that is not stuck has at least one step left. */
  lemma StuckOrProgress(s: Shop)
    requires Inv(s) && !Stuck(s)
    ensures StepsLeft(s) > 0
  {
    var t :| Exists(s, t) && Enabled(s, t);
    StepsLeftDecreases(s, t);
    NextInv(s, t);
    StepsLeftBounded(Next(s, t));
  }

  // ---------------------------------------------------------------------------
  // the code
  // ---------------------------------------------------------------------------

  /** The shared semaphores and counters, and where each thread stands.  A call makes one
      step in the loop of its thread. */
  class BurgerShop {
    const rackNum: nat
    var mutexPrint: nat
    var mutexRack: nat
    var mutexEntry: nat
    var mutexLeave: nat
    var emptyRack: nat
    var burgerNum: nat
    var orderNum: nat
    var provideNum: nat
    var leftNum: nat
    var terminateSignal: bool
    var cooks: seq<nat>
    var cashiers: seq<nat>
    var customers: seq<nat>
    var burgersMade: nat

    function Snapshot(): Shop
      reads this
    {
      Shop(rackNum, mutexPrint, mutexRack, mutexEntry, mutexLeave, emptyRack, burgerNum, orderNum, provideNum,
           leftNum, terminateSignal, cooks, cashiers, customers, burgersMade)
    }

    constructor (cookNum: nat, cashierNum: nat, custNum: nat, rackNum: nat)
      requires custNum > 0
      ensures Snapshot() == Open(cookNum, cashierNum, custNum, rackNum)
      ensures Inv(Snapshot())
    {
      this.rackNum := rackNum;
      mutexPrint, mutexRack, mutexEntry, mutexLeave := 1, 1, 1, 1;
      emptyRack, burgerNum, orderNum, provideNum := rackNum, 0, 0, 0;
      leftNum, terminateSignal, burgersMade := 0, false, 0;
      cooks, cashiers, customers := seq(cookNum, _ => 0), seq(cashierNum, _ => 0), seq(custNum, _ => 0);
      new;
      OpenInv(cookNum, cashierNum, custNum, rackNum);
    }

    method CookFunc(id: nat)
      requires Exists(Snapshot(), Cook(id)) && Enabled(Snapshot(), Cook(id))
      modifies this
      ensures Snapshot() == CookStep(old(Snapshot()), id)
    {
      match cooks[id] {
        case 0 => emptyRack := emptyRack - 1;
        case 1 => mutexRack := mutexRack - 1;
        case 2 => mutexPrint := mutexPrint - 1; burgersMade := burgersMade + 1;
        case 3 => mutexPrint := mutexPrint + 1;
        case 4 => mutexRack := mutexRack + 1;
        case _ => burgerNum := burgerNum + 1;
      }
      cooks := cooks[id := if cooks[id] == 5 then 0 else cooks[id] + 1];
    }

    method CashierFunc(id: nat)
      requires Exists(Snapshot(), Cashier(id)) && Enabled(Snapshot(), Cashier(id))
      modifies this
      ensures Snapshot() == CashierStep(old(Snapshot()), id)
    {
      match cashiers[id] {
        case 0 => orderNum := orderNum - 1;
        case 1 => mutexPrint := mutexPrint - 1;
        case 2 => mutexPrint := mutexPrint + 1;
        case 3 => burgerNum := burgerNum - 1;
        case 4 => mutexRack := mutexRack - 1;
        case 5 => mutexPrint := mutexPrint - 1;
        case 6 => mutexPrint := mutexPrint + 1;
        case 7 => provideNum := provideNum + 1;
        case 8 => emptyRack := emptyRack + 1;
        case _ => mutexRack := mutexRack + 1;
      }
      cashiers := cashiers[id := if cashiers[id] == 9 then 0 else cashiers[id] + 1];
    }

    method CustomFunc(id: nat)
      requires Exists(Snapshot(), Customer(id)) && Enabled(Snapshot(), Customer(id))
      modifies this
      ensures Snapshot() == CustomerStep(old(Snapshot()), id)
    {
      match customers[id] {
        case 0 => mutexEntry := mutexEntry - 1;
        case 1 => mutexPrint := mutexPrint - 1;
        case 2 => mutexPrint := mutexPrint + 1;
        case 3 => orderNum := orderNum + 1;
        case 4 => mutexEntry := mutexEntry + 1;
        case 5 => provideNum := provideNum - 1;
        case 6 => mutexLeave := mutexLeave - 1;
        case 7 =>
          leftNum := leftNum + 1;
          if leftNum == |customers| {
            terminateSignal := true;
          }
        case _ => mutexLeave := mutexLeave + 1;
      }
      customers := customers[id := customers[id] + 1];
    }
  }
}
