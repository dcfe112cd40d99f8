/** The real-time run queues as the C code keeps them: beside the lists, a bitmap of occupied
    levels, four counters, the two best priorities and an overload flag per CPU, and for
    the root domain the overload mask with its count and the priority published per CPU.

    Every method keeps these fields equal to functions of the lists and leaves the lists as
    the corresponding step of `RtModel` says. */
module RtRunqueue {
  import opened TaskLists
  import opened RtModel
  import RtFifo

  const CPUPRI_INVALID: int := -1
  const RT_MAX_TRIES: nat := 3

  /** `struct rt_rq` on top of its lists. */
  datatype RtRq = RtRq(q: Rq, bitmap: seq<bool>, nrRunning: nat, hpCurr: nat, hpNext: nat,
                       nrMigratory: nat, nrTotal: nat, overloaded: bool)

  // ---------------------------------------------------------------------------
  // what the cached fields ought to be
  // ---------------------------------------------------------------------------

  function QueuedSet(q: Rq, tasks: Tasks): set<Tid> {
    set t | t in tasks && Queued(q, tasks, t)
  }

  function MigratorySet(q: Rq, tasks: Tasks): set<Tid> {
    set t | t in tasks && Queued(q, tasks, t) && Migratory(tasks, t)
  }

  function HeadPrio(s: seq<Tid>, tasks: Tasks): nat
    requires forall t <- s :: t in tasks
  {
    if s == [] then MAX_RT_PRIO else tasks[s[0]].prio
  }

  /** The bitmap, with the delimiter bit that ends every search. */
  predicate Bits(queues: seq<seq<Tid>>, bitmap: seq<bool>) {
    && |queues| == MAX_RT_PRIO && |bitmap| == MAX_RT_PRIO + 1 && bitmap[MAX_RT_PRIO]
    && forall i: nat | i < MAX_RT_PRIO :: bitmap[i] <==> queues[i] != []
  }

  predicate Counts(r: RtRq, tasks: Tasks) {
    && r.nrRunning == r.nrTotal == |QueuedSet(r.q, tasks)|
    && r.nrMigratory == |MigratorySet(r.q, tasks)|
  }

  predicate IsOverloaded(r: RtRq) {
    r.nrMigratory > 0 && r.nrTotal > 1
  }

  predicate ArrayCached(r: RtRq, tasks: Tasks) {
    && Bits(r.q.queues, r.bitmap)
    && Counts(r, tasks)
    && r.hpCurr == Best(r.q)
    && (r.overloaded <==> IsOverloaded(r))
  }

  predicate NextCached(r: RtRq, tasks: Tasks) {
    (forall t <- r.q.pushable :: t in tasks) && r.hpNext == HeadPrio(r.q.pushable, tasks)
  }

  predicate Cached(r: RtRq, tasks: Tasks) {
    ArrayCached(r, tasks) && NextCached(r, tasks)
  }

  /** The cached fields hold no information of their own. */
  lemma CachesAreDetermined(r: RtRq, r': RtRq, tasks: Tasks)
    requires Cached(r, tasks) && Cached(r', tasks) && r.q == r'.q
    ensures r == r'
  {
  }

  /** A CPU is overloaded when a task that may move is queued beside another one. */
  lemma OverloadedIff(r: RtRq, tasks: Tasks)
    requires ArrayCached(r, tasks)
    ensures r.overloaded <==>
            exists t, u :: t != u && Queued(r.q, tasks, t) && Migratory(tasks, t) && Queued(r.q, tasks, u)
  {
    if r.overloaded {
      var t, u := OverloadedPair(r, tasks);
      assert t != u && Queued(r.q, tasks, t) && Migratory(tasks, t) && Queued(r.q, tasks, u);
    }
    forall t, u | t != u && Queued(r.q, tasks, t) && Migratory(tasks, t) && Queued(r.q, tasks, u) ensures r.overloaded {
      assert t in MigratorySet(r.q, tasks);
      CardinalityMonotone({t, u}, QueuedSet(r.q, tasks));
    }
  }

  lemma OverloadedPair(r: RtRq, tasks: Tasks) returns (t: Tid, u: Tid)
    requires ArrayCached(r, tasks) && r.overloaded
    ensures t != u && Queued(r.q, tasks, t) && Migratory(tasks, t) && Queued(r.q, tasks, u)
  {
    var queued := QueuedSet(r.q, tasks);
    t :| t in MigratorySet(r.q, tasks);
    assert queued == {t} + (queued - {t});
    assert |queued - {t}| > 0;
    u :| u in queued - {t};
  }

  lemma {:induction false} CardinalityMonotone(a: set<Tid>, b: set<Tid>)
    requires a <= b
    ensures |a| <= |b|
  {
    assert b == a + (b - a);
  }

  /** The number of entries on all lists. */
  function Length(queues: seq<seq<Tid>>): nat {
    if queues == [] then 0 else |queues[|queues| - 1]| + Length(queues[..|queues| - 1])
  }

  function QueuedBelow(q: Rq, tasks: Tasks, n: nat): set<Tid> {
    set t | t in tasks && Queued(q, tasks, t) && tasks[t].prio < n
  }

  /** `rt_nr_running` counts list entries. */
  lemma RunningIsLength(r: RtRq, tasks: Tasks, cpu: nat)
    requires QueuesOk(r.q, tasks, cpu) && Cached(r, tasks)
    ensures r.nrRunning == Length(r.q.queues)
  {
    LengthBelow(r.q, tasks, cpu, MAX_RT_PRIO);
    assert QueuedBelow(r.q, tasks, MAX_RT_PRIO) == QueuedSet(r.q, tasks);
    assert r.q.queues[..MAX_RT_PRIO] == r.q.queues;
  }

  lemma {:induction false} LengthBelow(q: Rq, tasks: Tasks, cpu: nat, n: nat)
    requires QueuesOk(q, tasks, cpu) && n <= MAX_RT_PRIO
    ensures |QueuedBelow(q, tasks, n)| == Length(q.queues[..n])
  {
    if n == 0 {
      assert QueuedBelow(q, tasks, 0) == {};
    } else {
      LengthBelow(q, tasks, cpu, n - 1);
      LevelSplits(q, tasks, cpu, n);
      assert q.queues[..n][..n - 1] == q.queues[..n - 1];
    }
  }

  lemma LevelSplits(q: Rq, tasks: Tasks, cpu: nat, n: nat)
    requires QueuesOk(q, tasks, cpu) && 0 < n <= MAX_RT_PRIO
    ensures |QueuedBelow(q, tasks, n)| == |QueuedBelow(q, tasks, n - 1)| + |q.queues[n - 1]|
  {
    var below, here := QueuedBelow(q, tasks, n - 1), Members(q.queues[n - 1]);
    LevelIs(q, tasks, cpu, n - 1);
    hide Unique, QueuesOk, Queued;
    assert QueuedBelow(q, tasks, n) == below + here;
    assert below !! here;
  }

  function Members(s: seq<Tid>): set<Tid> {
    set t | t in s
  }

  lemma LevelIs(q: Rq, tasks: Tasks, cpu: nat, i: nat)
    requires QueuesOk(q, tasks, cpu) && i < MAX_RT_PRIO
    ensures |Members(q.queues[i])| == |q.queues[i]|
    ensures forall u :: u in Members(q.queues[i]) <==> u in tasks && Queued(q, tasks, u) && tasks[u].prio == i
  {
    assert QueueOk(q.queues[i], tasks, cpu, i);
    UniqueCount(q.queues[i]);
  }

  lemma {:induction false} UniqueCount(s: seq<Tid>)
    requires Unique(s)
    ensures |Members(s)| == |s|
  {
    if s != [] {
      var rest := Members(s[1..]);
      UniqueCount(s[1..]);
      assert s[0] !in rest;
      assert Members(s) == {s[0]} + rest;
    }
  }

  /** Putting a task on its list changes the cached fields like this. */
  lemma LinkCached(r: RtRq, r': RtRq, tasks: Tasks, cpu: nat, t: Tid, head: bool)
    requires QueuesOk(r.q, tasks, cpu) && ArrayCached(r, tasks)
    requires t in tasks && tasks[t].prio < MAX_RT_PRIO && tasks[t].cpu == cpu && !Queued(r.q, tasks, t)
    requires r'.q == Link(r.q, tasks, t, head)
    requires r'.bitmap == r.bitmap[tasks[t].prio := true]
    requires r'.nrRunning == r.nrRunning + 1 && r'.nrTotal == r.nrTotal + 1
    requires r'.nrMigratory == r.nrMigratory + (if Migratory(tasks, t) then 1 else 0)
    requires r'.hpCurr == if tasks[t].prio < r.hpCurr then tasks[t].prio else r.hpCurr
    requires r'.overloaded == IsOverloaded(r')
    ensures ArrayCached(r', tasks)
  {
    LinkBits(r, tasks, t, head);
    LinkKeeps(r.q, tasks, cpu, t, head);
    CountsMore(r.q, r'.q, tasks, t);
  }

  /** One more queued task counts once, and once more when it can migrate. */
  lemma CountsMore(q: Rq, q': Rq, tasks: Tasks, t: Tid)
    requires t in tasks && !Queued(q, tasks, t)
    requires forall u :: Queued(q', tasks, u) <==> Queued(q, tasks, u) || u == t
    ensures |QueuedSet(q', tasks)| == |QueuedSet(q, tasks)| + 1
    ensures |MigratorySet(q', tasks)| == |MigratorySet(q, tasks)| + if Migratory(tasks, t) then 1 else 0
  {
    hide Queued, Migratory;
    assert QueuedSet(q', tasks) == QueuedSet(q, tasks) + {t};
    if Migratory(tasks, t) {
      assert MigratorySet(q', tasks) == MigratorySet(q, tasks) + {t};
    } else {
      assert MigratorySet(q', tasks) == MigratorySet(q, tasks);
    }
  }

  lemma LinkBits(r: RtRq, tasks: Tasks, t: Tid, head: bool)
    requires Bits(r.q.queues, r.bitmap) && t in tasks && tasks[t].prio < MAX_RT_PRIO
    ensures var q' := Link(r.q, tasks, t, head);
      && Bits(q'.queues, r.bitmap[tasks[t].prio := true])
      && Best(q') == if tasks[t].prio < Best(r.q) then tasks[t].prio else Best(r.q)
  {
    BestIs(Link(r.q, tasks, t, head), if tasks[t].prio < Best(r.q) then tasks[t].prio else Best(r.q));
  }

  /** And taking it off. */
  lemma UnlinkCached(r: RtRq, r': RtRq, tasks: Tasks, cpu: nat, t: Tid)
    requires QueuesOk(r.q, tasks, cpu) && ArrayCached(r, tasks) && Queued(r.q, tasks, t)
    requires r'.q == Unlink(r.q, tasks, t)
    requires var i := tasks[t].prio;
      r'.bitmap == if r'.q.queues[i] == [] then r.bitmap[i := false] else r.bitmap
    requires r'.nrRunning == r.nrRunning - 1 && r'.nrTotal == r.nrTotal - 1
    requires r'.nrMigratory == r.nrMigratory - (if Migratory(tasks, t) then 1 else 0)
    requires r'.hpCurr == if tasks[t].prio == r.hpCurr then Best(r'.q) else r.hpCurr
    requires r'.overloaded == IsOverloaded(r')
    ensures ArrayCached(r', tasks)
  {
    UnlinkBits(r, tasks, cpu, t);
    UnlinkKeeps(r.q, tasks, cpu, t);
    CountsMore(r'.q, r.q, tasks, t);
  }

  lemma UnlinkBits(r: RtRq, tasks: Tasks, cpu: nat, t: Tid)
    requires QueuesOk(r.q, tasks, cpu) && Bits(r.q.queues, r.bitmap) && Queued(r.q, tasks, t)
    ensures var q', i := Unlink(r.q, tasks, t), tasks[t].prio;
      && Bits(q'.queues, if q'.queues[i] == [] then r.bitmap[i := false] else r.bitmap)
      && Best(r.q) <= i
      && (i != Best(r.q) ==> Best(q') == Best(r.q))
  {
  }

  lemma QueuedIsCounted(r: RtRq, tasks: Tasks, t: Tid)
    requires Counts(r, tasks) && Queued(r.q, tasks, t)
    ensures r.nrRunning > 0 && r.nrTotal > 0
    ensures Migratory(tasks, t) ==> r.nrMigratory > 0
  {
    assert t in QueuedSet(r.q, tasks);
    assert Migratory(tasks, t) ==> t in MigratorySet(r.q, tasks);
  }

  /** The bitmap finds the most urgent occupied level. */
  lemma FirstBitIsBest(q: Rq, bitmap: seq<bool>, idx: nat)
    requires Bits(q.queues, bitmap) && idx <= MAX_RT_PRIO
    requires bitmap[idx] && forall i: nat | i < idx :: !bitmap[i]
    ensures idx == Best(q)
  {
  }

  // ---------------------------------------------------------------------------
  // what the root domain ought to hold
  // ---------------------------------------------------------------------------

  function OverloadedCpus(rqs: seq<RtRq>): set<nat> {
    set c: nat | c < |rqs| && rqs[c].q.online && rqs[c].overloaded
  }

  predicate MaskOk(rqs: seq<RtRq>, mask: set<nat>, count: nat) {
    mask == OverloadedCpus(rqs) && count == |mask|
  }

  predicate PriOk(rqs: seq<RtRq>, cpupri: seq<int>) {
    && |cpupri| == |rqs|
    && forall c: nat | c < |rqs| :: cpupri[c] == if rqs[c].q.online then rqs[c].hpCurr else CPUPRI_INVALID
  }

  function Lists(rqs: seq<RtRq>): seq<Rq> {
    seq(|rqs|, c requires 0 <= c < |rqs| => rqs[c].q)
  }

  lemma ListsUpdate(rqs: seq<RtRq>, c: nat, r: RtRq)
    requires c < |rqs|
    ensures |Lists(rqs)| == |rqs| && Lists(rqs)[c] == rqs[c].q
    ensures Lists(rqs[c := r]) == Lists(rqs)[c := r.q]
  {
  }

  lemma MaskUpdate(rqs: seq<RtRq>, c: nat, r: RtRq)
    requires c < |rqs|
    ensures OverloadedCpus(rqs[c := r])
         == if r.q.online && r.overloaded then OverloadedCpus(rqs) + {c} else OverloadedCpus(rqs) - {c}
    ensures c in OverloadedCpus(rqs) <==> rqs[c].q.online && rqs[c].overloaded
  {
  }

  lemma MaskUpdateSame(rqs: seq<RtRq>, c: nat, r: RtRq)
    requires c < |rqs| && r.q.online == rqs[c].q.online && r.overloaded == rqs[c].overloaded
    ensures OverloadedCpus(rqs[c := r]) == OverloadedCpus(rqs)
  {
  }

  lemma PriUpdateSame(rqs: seq<RtRq>, cpupri: seq<int>, c: nat, r: RtRq)
    requires c < |rqs| && PriOk(rqs, cpupri) && r.q.online == rqs[c].q.online && r.hpCurr == rqs[c].hpCurr
    ensures PriOk(rqs[c := r], cpupri)
  {
  }

  lemma PriUpdate(rqs: seq<RtRq>, cpupri: seq<int>, c: nat, r: RtRq)
    requires c < |rqs| && PriOk(rqs, cpupri)
    ensures |cpupri| == |rqs|
    ensures PriOk(rqs[c := r], cpupri[c := if r.q.online then r.hpCurr else CPUPRI_INVALID])
  {
  }

  /** A whole coherent state. */
  ghost predicate Coherent(rqs: seq<RtRq>, tasks: Tasks, mask: set<nat>, count: nat, cpupri: seq<int>) {
    && Ok(System(Lists(rqs), tasks))
    && (forall c: nat | c < |rqs| :: Cached(rqs[c], tasks))
    && MaskOk(rqs, mask, count) && PriOk(rqs, cpupri)
  }

  /** `sched_find_first_bit` and `find_next_bit`. */
  method FindNextBit(bitmap: seq<bool>, from: nat) returns (idx: nat)
    requires from <= MAX_RT_PRIO < |bitmap| && bitmap[MAX_RT_PRIO]
    ensures from <= idx <= MAX_RT_PRIO && bitmap[idx]
    ensures forall i: nat | from <= i < idx :: !bitmap[i]
  {
    idx := from;
    while !bitmap[idx]
      invariant from <= idx <= MAX_RT_PRIO
      invariant forall i: nat | from <= i < idx :: !bitmap[i]
      decreases MAX_RT_PRIO - idx
    {
      idx := idx + 1;
    }
  }

  lemma RequeueIs(q: Rq, tasks: Tasks, cpu: nat, t: Tid, head: bool)
    requires RqOk(q, tasks, cpu) && t in tasks
    ensures !Queued(q, tasks, t) ==> RequeueRq(q, tasks, t, head) == q
    ensures Queued(q, tasks, t) ==>
      var p := tasks[t].prio;
      && p < |q.queues| == |RequeueRq(q, tasks, t, head).queues|
      && (var rest := Remove(q.queues[p], t);
          RequeueRq(q, tasks, t, head) == q.(queues := q.queues[p := if head then [t] + rest else rest + [t]]))
      && RtFifo.OnlyLevel(q, RequeueRq(q, tasks, t, head), p)
      && RtFifo.Joined(q.queues[p], RequeueRq(q, tasks, t, head).queues[p], t, head)
  {
    if Queued(q, tasks, t) {
      RtFifo.RequeueJoins(q, tasks, cpu, t, head);
    }
    hide RqOk, RtFifo.Joined, Remove;
  }

  // ---------------------------------------------------------------------------
  // the code
  // ---------------------------------------------------------------------------

  class RtScheduler {
    const rq: array<RtRq>
    var tasks: Tasks
    var rtoCount: nat
    var rtoMask: set<nat>
    var cpupri: seq<int>

    function Abs(): System
      reads this, rq
    {
      System(Lists(rq[..]), tasks)
    }

    ghost predicate Valid()
      reads this, rq
    {
      Coherent(rq[..], tasks, rtoMask, rtoCount, cpupri)
    }

    /** `init_rt_rq` on every CPU. */
    constructor (cpus: nat, tasks: Tasks, idle: seq<Tid>)
      requires |idle| == cpus && forall t <- tasks :: tasks[t].cpu < cpus
      requires forall c: nat | c < cpus :: idle[c] in tasks && tasks[idle[c]].cpu == c
      ensures Valid() && fresh(rq) && rq.Length == cpus && this.tasks == tasks
      ensures forall c: nat | c < cpus :: rq[c].q == Rq(seq(MAX_RT_PRIO, _ => []), [], idle[c], false, false)
    {
      var bitmap := seq(MAX_RT_PRIO + 1, i => i == MAX_RT_PRIO);
      var queues: seq<seq<Tid>> := seq(MAX_RT_PRIO, _ => []);
      this.tasks := tasks;
      rtoCount, rtoMask := 0, {};
      cpupri := seq(cpus, _ => CPUPRI_INVALID);
      rq := new RtRq[cpus](c requires 0 <= c < cpus =>
        RtRq(Rq(queues, [], idle[c], false, false), bitmap, 0, MAX_RT_PRIO, MAX_RT_PRIO, 0, 0, false));
      new;
      forall c: nat | c < cpus ensures Cached(rq[c], tasks) && RqOk(rq[c].q, tasks, c) {
        BestIs(rq[c].q, MAX_RT_PRIO);
        assert QueuedSet(rq[c].q, tasks) == {};
        assert MigratorySet(rq[c].q, tasks) == {};
      }
      assert OverloadedCpus(rq[..]) == {};
    }

    // -- overload accounting

    method RtSetOverload(c: nat)
      requires c < rq.Length
      requires rq[c].q.online ==> c !in rtoMask && rtoCount == |rtoMask|
      modifies this`rtoMask, this`rtoCount
      ensures rq[c].q.online ==> rtoMask == old(rtoMask) + {c} && rtoCount == |rtoMask|
      ensures !rq[c].q.online ==> rtoMask == old(rtoMask) && rtoCount == old(rtoCount)
    {
      if !rq[c].q.online {
        return;
      }
      rtoMask := rtoMask + {c};
      rtoCount := rtoCount + 1;
    }

    method RtClearOverload(c: nat)
      requires c < rq.Length
      requires rq[c].q.online ==> c in rtoMask && rtoCount == |rtoMask|
      modifies this`rtoMask, this`rtoCount
      ensures rq[c].q.online ==> rtoMask == old(rtoMask) - {c} && rtoCount == |rtoMask|
      ensures !rq[c].q.online ==> rtoMask == old(rtoMask) && rtoCount == old(rtoCount)
    {
      if !rq[c].q.online {
        return;
      }
      rtoCount := rtoCount - 1;
      rtoMask := rtoMask - {c};
    }

    method UpdateRtMigration(c: nat)
      requires c < rq.Length && MaskOk(rq[..], rtoMask, rtoCount)
      modifies rq, this`rtoMask, this`rtoCount
      ensures MaskOk(rq[..], rtoMask, rtoCount)
      ensures rq[..] == old(rq[..])[c := old(rq[c]).(overloaded := IsOverloaded(old(rq[c])))]
    {
      MaskUpdate(rq[..], c, rq[c].(overloaded := IsOverloaded(rq[c])));
      MaskUpdate(rq[..], c, rq[c]);
      assert rq[..][c := rq[c]] == rq[..];
      if rq[c].nrMigratory > 0 && rq[c].nrTotal > 1 {
        if !rq[c].overloaded {
          RtSetOverload(c);
          rq[c] := rq[c].(overloaded := true);
        }
      } else if rq[c].overloaded {
        RtClearOverload(c);
        rq[c] := rq[c].(overloaded := false);
      }
      assert rq[..] == old(rq[..])[c := old(rq[c]).(overloaded := IsOverloaded(old(rq[c])))];
    }

    /** `inc_rt_migration`. */
    method IncRtMigration(c: nat, t: Tid)
      requires c < rq.Length && t in tasks && MaskOk(rq[..], rtoMask, rtoCount)
      modifies rq, this`rtoMask, this`rtoCount
      ensures MaskOk(rq[..], rtoMask, rtoCount)
      ensures rq[..] == old(rq[..])[c := rq[c]]
      ensures rq[c] == old(rq[c]).(nrTotal := old(rq[c]).nrTotal + 1,
                nrMigratory := old(rq[c]).nrMigratory + (if Migratory(tasks, t) then 1 else 0),
                overloaded := IsOverloaded(rq[c]))
    {
      MaskUpdateSame(rq[..], c, rq[c].(nrTotal := rq[c].nrTotal + 1,
                nrMigratory := rq[c].nrMigratory + (if Migratory(tasks, t) then 1 else 0)));
      rq[c] := rq[c].(nrTotal := rq[c].nrTotal + 1);
      if |tasks[t].allowed| > 1 {
        rq[c] := rq[c].(nrMigratory := rq[c].nrMigratory + 1);
      }
      assert rq[..] == old(rq[..])[c := rq[c]];
      UpdateRtMigration(c);
    }

    method DecRtMigration(c: nat, t: Tid)
      requires c < rq.Length && t in tasks && MaskOk(rq[..], rtoMask, rtoCount)
      requires rq[c].nrTotal > 0 && (Migratory(tasks, t) ==> rq[c].nrMigratory > 0)
      modifies rq, this`rtoMask, this`rtoCount
      ensures MaskOk(rq[..], rtoMask, rtoCount)
      ensures rq[..] == old(rq[..])[c := rq[c]]
      ensures rq[c] == old(rq[c]).(nrTotal := old(rq[c]).nrTotal - 1,
                nrMigratory := old(rq[c]).nrMigratory - (if Migratory(tasks, t) then 1 else 0),
                overloaded := IsOverloaded(rq[c]))
    {
      MaskUpdateSame(rq[..], c, rq[c].(nrTotal := rq[c].nrTotal - 1,
                nrMigratory := rq[c].nrMigratory - (if Migratory(tasks, t) then 1 else 0)));
      rq[c] := rq[c].(nrTotal := rq[c].nrTotal - 1);
      if |tasks[t].allowed| > 1 {
        rq[c] := rq[c].(nrMigratory := rq[c].nrMigratory - 1);
      }
      assert rq[..] == old(rq[..])[c := rq[c]];
      UpdateRtMigration(c);
    }

    // -- best priority

    method IncRtPrio(c: nat, prio: nat)
      requires c < rq.Length && PriOk(rq[..], cpupri)
      modifies rq, this`cpupri
      ensures PriOk(rq[..], cpupri)
      ensures rq[..] == old(rq[..])[c := rq[c]]
      ensures rq[c] == old(rq[c]).(hpCurr := if prio < old(rq[c]).hpCurr then prio else old(rq[c]).hpCurr)
    {
      var prev := rq[c].hpCurr;
      if prio < prev {
        rq[c] := rq[c].(hpCurr := prio);
      }
      if rq[c].q.online && prio < prev {
        cpupri := cpupri[c := prio];
      }
      assert rq[..] == old(rq[..])[c := rq[c]];
    }

    /** The first assertion is the source's WARN_ON. */
    method DecRtPrio(c: nat, prio: nat)
      requires c < rq.Length && PriOk(rq[..], cpupri) && Bits(rq[c].q.queues, rq[c].bitmap)
      requires rq[c].nrRunning > 0 ==> rq[c].hpCurr <= prio
      requires rq[c].nrRunning == 0 ==> Best(rq[c].q) == MAX_RT_PRIO && rq[c].hpCurr == prio
      modifies rq, this`cpupri
      ensures PriOk(rq[..], cpupri)
      ensures rq[..] == old(rq[..])[c := rq[c]]
      ensures rq[c] == old(rq[c]).(hpCurr := if prio == old(rq[c]).hpCurr then Best(rq[c].q) else old(rq[c]).hpCurr)
    {
      var prev := rq[c].hpCurr;
      if rq[c].nrRunning != 0 {
        assert !(prio < prev);
        if prio == prev {
          var idx := FindNextBit(rq[c].bitmap, 0);
          FirstBitIsBest(rq[c].q, rq[c].bitmap, idx);
          rq[c] := rq[c].(hpCurr := idx);
        }
      } else {
        rq[c] := rq[c].(hpCurr := MAX_RT_PRIO);
      }
      if rq[c].q.online && rq[c].hpCurr != prev {
        cpupri := cpupri[c := rq[c].hpCurr];
      }
      assert rq[..] == old(rq[..])[c := rq[c]];
    }

    // -- the priority array

    method IncRtTasks(c: nat, t: Tid)
      requires c < rq.Length && t in tasks && MaskOk(rq[..], rtoMask, rtoCount) && PriOk(rq[..], cpupri)
      modifies rq, this`rtoMask, this`rtoCount, this`cpupri
      ensures MaskOk(rq[..], rtoMask, rtoCount) && PriOk(rq[..], cpupri)
      ensures rq[..] == old(rq[..])[c := rq[c]]
      ensures var r := old(rq[c]);
        rq[c] == r.(nrRunning := r.nrRunning + 1, nrTotal := r.nrTotal + 1,
                    nrMigratory := r.nrMigratory + (if Migratory(tasks, t) then 1 else 0),
                    hpCurr := if tasks[t].prio < r.hpCurr then tasks[t].prio else r.hpCurr,
                    overloaded := IsOverloaded(rq[c]))
    {
      hide Migratory;
      rq[c] := rq[c].(nrRunning := rq[c].nrRunning + 1);
      assert rq[..] == old(rq[..])[c := rq[c]];
      MaskUpdateSame(old(rq[..]), c, rq[c]);
      IncRtPrio(c, tasks[t].prio);
      MaskUpdateSame(old(rq[..]), c, rq[c]);
      hide OverloadedCpus;
      IncRtMigration(c, t);
    }

    method DecRtTasks(c: nat, t: Tid)
      requires c < rq.Length && t in tasks && MaskOk(rq[..], rtoMask, rtoCount) && PriOk(rq[..], cpupri)
      requires Bits(rq[c].q.queues, rq[c].bitmap)
      requires rq[c].nrRunning > 0 && rq[c].nrTotal > 0 && (Migratory(tasks, t) ==> rq[c].nrMigratory > 0)
      requires rq[c].hpCurr <= tasks[t].prio
      requires rq[c].nrRunning == 1 ==> Best(rq[c].q) == MAX_RT_PRIO && rq[c].hpCurr == tasks[t].prio
      modifies rq, this`rtoMask, this`rtoCount, this`cpupri
      ensures MaskOk(rq[..], rtoMask, rtoCount) && PriOk(rq[..], cpupri)
      ensures rq[..] == old(rq[..])[c := rq[c]]
      ensures var r := old(rq[c]);
        rq[c] == r.(nrRunning := r.nrRunning - 1, nrTotal := r.nrTotal - 1,
                    nrMigratory := r.nrMigratory - (if Migratory(tasks, t) then 1 else 0),
                    hpCurr := if tasks[t].prio == r.hpCurr then Best(r.q) else r.hpCurr,
                    overloaded := IsOverloaded(rq[c]))
    {
      hide Migratory;
      rq[c] := rq[c].(nrRunning := rq[c].nrRunning - 1);
      assert rq[..] == old(rq[..])[c := rq[c]];
      MaskUpdateSame(old(rq[..]), c, rq[c]);
      DecRtPrio(c, tasks[t].prio);
      MaskUpdateSame(old(rq[..]), c, rq[c]);
      hide OverloadedCpus, Bits, Best;
      DecRtMigration(c, t);
    }

    /** `__enqueue_rt_entity`. */
    method EnqueueEntity(c: nat, t: Tid, head: bool)
      requires c < rq.Length && MaskOk(rq[..], rtoMask, rtoCount) && PriOk(rq[..], cpupri)
      requires QueuesOk(rq[c].q, tasks, c) && ArrayCached(rq[c], tasks)
      requires t in tasks && tasks[t].prio < MAX_RT_PRIO && tasks[t].cpu == c && !Queued(rq[c].q, tasks, t)
      modifies rq, this`rtoMask, this`rtoCount, this`cpupri
      ensures MaskOk(rq[..], rtoMask, rtoCount) && PriOk(rq[..], cpupri)
      ensures rq[..] == old(rq[..])[c := rq[c]]
      ensures rq[c].q == Link(old(rq[c]).q, tasks, t, head) && rq[c].hpNext == old(rq[c]).hpNext
      ensures ArrayCached(rq[c], tasks)
    {
      var r, prio := rq[c], tasks[t].prio;
      var queue := if head then [t] + r.q.queues[prio] else r.q.queues[prio] + [t];
      rq[c] := rq[c].(q := rq[c].q.(queues := rq[c].q.queues[prio := queue]));
      rq[c] := rq[c].(bitmap := rq[c].bitmap[prio := true]);
      assert rq[..] == old(rq[..])[c := rq[c]];
      MaskUpdateSame(old(rq[..]), c, rq[c]);
      PriUpdateSame(old(rq[..]), cpupri, c, rq[c]);
      assert rq[c].q == Link(r.q, tasks, t, head);
      hide Link, QueuesOk, Queued, Bits, Counts, Migratory, Best, OverloadedCpus, PriOk;
      IncRtTasks(c, t);
      LinkCached(r, rq[c], tasks, c, t, head);
    }

    /** `__dequeue_rt_entity`. */
    method DequeueEntity(c: nat, t: Tid)
      requires c < rq.Length && MaskOk(rq[..], rtoMask, rtoCount) && PriOk(rq[..], cpupri)
      requires QueuesOk(rq[c].q, tasks, c) && ArrayCached(rq[c], tasks) && Queued(rq[c].q, tasks, t)
      modifies rq, this`rtoMask, this`rtoCount, this`cpupri
      ensures MaskOk(rq[..], rtoMask, rtoCount) && PriOk(rq[..], cpupri)
      ensures rq[..] == old(rq[..])[c := rq[c]]
      ensures rq[c].q == Unlink(old(rq[c]).q, tasks, t) && rq[c].hpNext == old(rq[c]).hpNext
      ensures ArrayCached(rq[c], tasks)
    {
      var r, prio := rq[c], tasks[t].prio;
      QueuedIsCounted(r, tasks, t);
      UnlinkLeaves(r, tasks, c, t);
      UnlinkBits(r, tasks, c, t);
      rq[c] := rq[c].(q := rq[c].q.(queues := rq[c].q.queues[prio := Remove(rq[c].q.queues[prio], t)]));
      if rq[c].q.queues[prio] == [] {
        rq[c] := rq[c].(bitmap := rq[c].bitmap[prio := false]);
      }
      assert rq[..] == old(rq[..])[c := rq[c]];
      MaskUpdateSame(old(rq[..]), c, rq[c]);
      PriUpdateSame(old(rq[..]), cpupri, c, rq[c]);
      assert rq[c].q == Unlink(r.q, tasks, t);
      hide Unlink, QueuesOk, Queued, Bits, Counts, Migratory, Best, OverloadedCpus, PriOk;
      DecRtTasks(c, t);
      UnlinkCached(r, rq[c], tasks, c, t);
    }

    /** `enqueue_rt_entity`: an entity that is already on its list is taken off first. */
    method EnqueueRtEntity(c: nat, t: Tid, head: bool)
      requires c < rq.Length && MaskOk(rq[..], rtoMask, rtoCount) && PriOk(rq[..], cpupri)
      requires QueuesOk(rq[c].q, tasks, c) && ArrayCached(rq[c], tasks)
      requires t in tasks && tasks[t].prio < MAX_RT_PRIO && tasks[t].cpu == c
      modifies rq, this`rtoMask, this`rtoCount, this`cpupri
      ensures MaskOk(rq[..], rtoMask, rtoCount) && PriOk(rq[..], cpupri)
      ensures rq[..] == old(rq[..])[c := rq[c]]
      ensures rq[c].q == Link(Unlink(old(rq[c]).q, tasks, t), tasks, t, head) && rq[c].hpNext == old(rq[c]).hpNext
      ensures ArrayCached(rq[c], tasks)
    {
      UnlinkKeeps(rq[c].q, tasks, c, t);
      hide QueuesOk, Queued, Bits, Counts, ArrayCached, Unlink, Link, MaskOk, PriOk;
      if Queued(rq[c].q, tasks, t) {
        DequeueEntity(c, t);
      }
      EnqueueEntity(c, t, head);
    }

    // -- the pushable list

    method EnqueuePushableTask(c: nat, t: Tid)
      requires c < rq.Length && MaskOk(rq[..], rtoMask, rtoCount) && PriOk(rq[..], cpupri)
      requires PlistOk(rq[c].q.pushable, tasks) && NextCached(rq[c], tasks)
      requires t in tasks && tasks[t].prio < MAX_RT_PRIO
      modifies rq
      ensures MaskOk(rq[..], rtoMask, rtoCount) && PriOk(rq[..], cpupri)
      ensures rq[..] == old(rq[..])[c := rq[c]] && NextCached(rq[c], tasks)
      ensures rq[c] == old(rq[c]).(q := PlistAdd(old(rq[c].q), tasks, t), hpNext := rq[c].hpNext)
    {
      HeadAfterAdd(rq[c].q, tasks, t);
      rq[c] := rq[c].(q := PlistAdd(rq[c].q, tasks, t));
      if tasks[t].prio < rq[c].hpNext {
        rq[c] := rq[c].(hpNext := tasks[t].prio);
      }
      assert rq[..] == old(rq[..])[c := rq[c]];
      MaskUpdateSame(old(rq[..]), c, rq[c]);
    }

    method DequeuePushableTask(c: nat, t: Tid)
      requires c < rq.Length && MaskOk(rq[..], rtoMask, rtoCount) && PriOk(rq[..], cpupri)
      requires PlistOk(rq[c].q.pushable, tasks)
      modifies rq
      ensures MaskOk(rq[..], rtoMask, rtoCount) && PriOk(rq[..], cpupri)
      ensures rq[..] == old(rq[..])[c := rq[c]] && NextCached(rq[c], tasks)
      ensures rq[c] == old(rq[c]).(q := PlistDel(old(rq[c].q), t), hpNext := rq[c].hpNext)
    {
      RemoveMembers(rq[c].q.pushable, t);
      rq[c] := rq[c].(q := PlistDel(rq[c].q, t));
      if rq[c].q.pushable != [] {
        rq[c] := rq[c].(hpNext := tasks[rq[c].q.pushable[0]].prio);
      } else {
        rq[c] := rq[c].(hpNext := MAX_RT_PRIO);
      }
      assert rq[..] == old(rq[..])[c := rq[c]];
      MaskUpdateSame(old(rq[..]), c, rq[c]);
    }

    // -- the operations of the class

    /** What a queue operation may rely on. */
    ghost predicate Local(c: nat)
      reads this, rq
    {
      && c < rq.Length && RqOk(rq[c].q, tasks, c) && Cached(rq[c], tasks)
      && MaskOk(rq[..], rtoMask, rtoCount) && PriOk(rq[..], cpupri)
    }

    method EnqueueTaskRt(c: nat, t: Tid, head: bool)
      requires Local(c) && t in tasks && tasks[t].prio < MAX_RT_PRIO && tasks[t].cpu == c
      modifies rq, this`rtoMask, this`rtoCount, this`cpupri
      ensures Local(c) && rq[..] == old(rq[..])[c := rq[c]]
      ensures rq[c].q == EnqueueRq(old(rq[c].q), tasks, t, head)
      ensures RtFifo.OnlyLevel(old(rq[c].q), rq[c].q, tasks[t].prio)
      ensures RtFifo.Joined(old(rq[c].q.queues[tasks[t].prio]), rq[c].q.queues[tasks[t].prio], t, head)
    {
      EnqueueKeeps(rq[c].q, tasks, c, t, head);
      RtFifo.EnqueueJoins(rq[c].q, tasks, c, t, head);
      hide Queued, ArrayCached, Unlink, MaskOk, PriOk, PlistOk, Link, RtFifo.Joined, RtFifo.OnlyLevel;
      EnqueueRtEntity(c, t, head);
      ghost var r := rq[c];
      if t != rq[c].q.curr && |tasks[t].allowed| > 1 {
        EnqueuePushableTask(c, t);
      }
      PushableOnly(r, rq[c], tasks);
    }

    method DequeueTaskRt(c: nat, t: Tid)
      requires Local(c) && t in tasks && tasks[t].prio < MAX_RT_PRIO
      modifies rq, this`rtoMask, this`rtoCount, this`cpupri
      ensures Local(c) && rq[..] == old(rq[..])[c := rq[c]]
      ensures rq[c].q == DequeueRq(old(rq[c].q), tasks, t)
    {
      DequeueKeeps(rq[c].q, tasks, c, t);
      UnlinkKeeps(rq[c].q, tasks, c, t);
      hide Queued, ArrayCached, Unlink, MaskOk, PriOk, PlistOk;
      if Queued(rq[c].q, tasks, t) {
        DequeueEntity(c, t);
      }
      ghost var r := rq[c];
      DequeuePushableTask(c, t);
      PushableOnly(r, rq[c], tasks);
    }

    method RequeueTaskRt(c: nat, t: Tid, head: bool)
      requires Local(c) && t in tasks
      modifies rq
      ensures Local(c) && rq[..] == old(rq[..])[c := rq[c]]
      ensures rq[c].q == RequeueRq(old(rq[c].q), tasks, t, head)
      ensures !Queued(old(rq[c].q), tasks, t) ==> rq[c].q == old(rq[c].q)
      ensures Queued(old(rq[c].q), tasks, t) ==>
        && RtFifo.OnlyLevel(old(rq[c].q), rq[c].q, tasks[t].prio)
        && RtFifo.Joined(old(rq[c].q.queues[tasks[t].prio]), rq[c].q.queues[tasks[t].prio], t, head)
    {
      RequeueKeeps(rq[c].q, tasks, c, t, head);
      RequeueIs(rq[c].q, tasks, c, t, head);
      ghost var r := rq[c];
      hide RqOk, Cached, PriOk, Queued, RequeueRq, RtFifo.Joined, RtFifo.OnlyLevel;
      if Queued(rq[c].q, tasks, t) {
        var prio := tasks[t].prio;
        var rest := Remove(rq[c].q.queues[prio], t);
        var queue := if head then [t] + rest else rest + [t];
        rq[c] := rq[c].(q := rq[c].q.(queues := rq[c].q.queues[prio := queue]));
      }
      assert rq[..] == old(rq[..])[c := rq[c]];
      MaskUpdateSame(old(rq[..]), c, rq[c]);
      PriUpdateSame(old(rq[..]), cpupri, c, rq[c]);
      RequeueCached(r, rq[c], tasks, c, t, head);
    }

    /** `_pick_next_task_rt` and the removal of the chosen task from the pushable list.  The
        assertion is the source's BUG_ON. */
    method PickNextTaskRt(c: nat) returns (next: Option<Tid>)
      requires c < rq.Length && QueuesOk(rq[c].q, tasks, c) && PlistOk(rq[c].q.pushable, tasks)
      requires Cached(rq[c], tasks) && MaskOk(rq[..], rtoMask, rtoCount) && PriOk(rq[..], cpupri)
      modifies rq
      ensures Cached(rq[c], tasks) && MaskOk(rq[..], rtoMask, rtoCount) && PriOk(rq[..], cpupri)
      ensures rq[..] == old(rq[..])[c := rq[c]]
      ensures var q := old(rq[c]).q;
        && next == (if q.throttled || Best(q) == MAX_RT_PRIO then None else Some(q.queues[Best(q)][0]))
        && rq[c].q == if next.None? then q else PlistDel(q, next.value)
    {
      next := None;
      RunningIffOccupied(rq[c], tasks, c);
      ghost var r := rq[c];
      if rq[c].nrRunning != 0 && !rq[c].q.throttled {
        var idx := FindNextBit(rq[c].bitmap, 0);
        FirstBitIsBest(rq[c].q, rq[c].bitmap, idx);
        assert idx < MAX_RT_PRIO;
        next := Some(rq[c].q.queues[idx][0]);
        hide ArrayCached, QueuesOk, MaskOk, PriOk, PlistOk;
        DequeuePushableTask(c, next.value);
      }
      assert rq[..] == old(rq[..])[c := rq[c]];
      PushableOnly(r, rq[c], tasks);
    }

    method PutPrevTaskRt(c: nat)
      requires Local(c)
      modifies rq
      ensures QueuesOk(rq[c].q, tasks, c) && PlistOk(rq[c].q.pushable, tasks)
      ensures Cached(rq[c], tasks) && MaskOk(rq[..], rtoMask, rtoCount) && PriOk(rq[..], cpupri)
      ensures rq[..] == old(rq[..])[c := rq[c]]
      ensures rq[c].q == PutPrev(old(rq[c].q), tasks)
    {
      PutPrevKeeps(rq[c].q, tasks, c);
      QueuedIsRt(rq[c].q, tasks, c, rq[c].q.curr);
      ghost var r := rq[c];
      var prev := rq[c].q.curr;
      hide ArrayCached, MaskOk, PriOk, PlistOk, QueuesOk;
      if Queued(rq[c].q, tasks, prev) && |tasks[prev].allowed| > 1 {
        EnqueuePushableTask(c, prev);
      }
      assert rq[..] == old(rq[..])[c := rq[c]];
      PushableOnly(r, rq[c], tasks);
    }

    /** The middle of `__schedule`: put the running task back, pick, switch. */
    method Schedule(c: nat, offer: Offer)
      requires Local(c) && OfferOk(rq[c].q, tasks, c, offer)
      modifies rq
      ensures Local(c) && rq[..] == old(rq[..])[c := rq[c]]
      ensures rq[c].q == Switch(old(rq[c].q), tasks, offer)
    {
      SwitchKeeps(rq[c].q, tasks, c, offer);
      PutPrevKeeps(rq[c].q, tasks, c);
      ghost var q := rq[c].q;
      hide Queued, ArrayCached, MaskOk, PriOk, PlistOk, QueuesOk, OfferOk, PutPrev;
      PutPrevTaskRt(c);
      var next: Option<Tid> := None;
      if !offer.stop {
        next := PickNextTaskRt(c);
      }
      SetCurr(c, if next.Some? then next.value else offer.fallback);
      PutPrevLists(q, tasks);
    }

    /** `rq->curr = next`. */
    method SetCurr(c: nat, next: Tid)
      requires c < rq.Length && Cached(rq[c], tasks)
      requires MaskOk(rq[..], rtoMask, rtoCount) && PriOk(rq[..], cpupri)
      modifies rq
      ensures Cached(rq[c], tasks) && MaskOk(rq[..], rtoMask, rtoCount) && PriOk(rq[..], cpupri)
      ensures rq[..] == old(rq[..])[c := rq[c]]
      ensures rq[c].q == old(rq[c].q).(curr := next)
    {
      rq[c] := rq[c].(q := rq[c].q.(curr := next));
      assert rq[..] == old(rq[..])[c := rq[c]];
      PushableOnly(old(rq[c]), rq[c], tasks);
      MaskUpdateSame(old(rq[..]), c, rq[c]);
    }

    /** The part of `set_cpus_allowed_rt` for a queued task that is not running. */
    method RepushTask(c: nat, t: Tid, weight: nat)
      requires Local(c) && Queued(rq[c].q, tasks, t) && t != rq[c].q.curr && weight != |tasks[t].allowed|
      modifies rq
      ensures NextCached(rq[c], tasks) && MaskOk(rq[..], rtoMask, rtoCount) && PriOk(rq[..], cpupri)
      ensures rq[..] == old(rq[..])[c := rq[c]]
      ensures rq[c] == old(rq[c]).(q := AffinityRq(old(rq[c].q), tasks, t, weight), hpNext := rq[c].hpNext)
    {
      QueuedIsRt(rq[c].q, tasks, c, t);
      PlistDelKeeps(rq[c].q, tasks, t);
      hide ArrayCached, MaskOk, PriOk, PlistOk, QueuesOk;
      assert rq[..] == old(rq[..])[c := rq[c]];
      if |tasks[t].allowed| > 1 {
        DequeuePushableTask(c, t);
      }
      if weight > 1 {
        EnqueuePushableTask(c, t);
      }
    }

    /** The counter part of `set_cpus_allowed_rt`.  The assertion is the source's BUG_ON. */
    method AdjustMigratory(c: nat, was: nat, weight: nat)
      requires c < rq.Length && MaskOk(rq[..], rtoMask, rtoCount) && PriOk(rq[..], cpupri)
      requires was > 1 ==> rq[c].nrMigratory > 0
      modifies rq, this`rtoMask, this`rtoCount
      ensures MaskOk(rq[..], rtoMask, rtoCount) && PriOk(rq[..], cpupri)
      ensures rq[..] == old(rq[..])[c := rq[c]]
      ensures var r := old(rq[c]);
        rq[c] == r.(nrMigratory := r.nrMigratory - (if was > 1 then 1 else 0) + (if weight > 1 then 1 else 0),
                    overloaded := IsOverloaded(rq[c]))
    {
      if was <= 1 && weight > 1 {
        rq[c] := rq[c].(nrMigratory := rq[c].nrMigratory + 1);
      } else if was > 1 && weight <= 1 {
        assert rq[c].nrMigratory > 0;
        rq[c] := rq[c].(nrMigratory := rq[c].nrMigratory - 1);
      }
      assert rq[..] == old(rq[..])[c := rq[c]];
      MaskUpdateSame(old(rq[..]), c, rq[c]);
      PriUpdateSame(old(rq[..]), cpupri, c, rq[c]);
      ghost var before := rq[..];
      hide PriOk, OverloadedCpus;
      UpdateRtMigration(c);
      PriUpdateSame(before, cpupri, c, rq[c]);
    }

    /** `set_cpus_allowed_rt`. */
    method SetCpusAllowedRt(c: nat, t: Tid, mask: set<nat>)
      requires Local(c) && t in tasks && tasks[t].cpu == c
      modifies rq, this`rtoMask, this`rtoCount
      ensures Cached(rq[c], tasks[t := tasks[t].(allowed := mask)])
      ensures MaskOk(rq[..], rtoMask, rtoCount) && PriOk(rq[..], cpupri)
      ensures rq[..] == old(rq[..])[c := rq[c]]
      ensures rq[c].q == AffinityRq(old(rq[c].q), tasks, t, |mask|)
    {
      var weight, was := |mask|, |tasks[t].allowed|;
      ghost var r := rq[c];
      AffinityMembers(r.q, tasks, t, weight);
      ArrayCounts(r, tasks, t);
      hide RqOk, ArrayCached, PriOk, AffinityRq, MaskOk, NextCached, Queued;
      assert rq[..] == old(rq[..])[c := rq[c]];
      if Queued(rq[c].q, tasks, t) && weight != was {
        if t != rq[c].q.curr {
          RepushTask(c, t, weight);
        }
        AdjustMigratory(c, was, weight);
      }
      AffinityCached(r, rq[c], tasks, c, t, mask);
    }

    // -- the whole system: one method per step

    method ActivateTask(t: Tid, head: bool)
      requires Valid() && t in tasks && tasks[t].prio < MAX_RT_PRIO
      modifies rq, this`rtoMask, this`rtoCount, this`cpupri
      ensures Valid() && Abs() == Next(old(Abs()), Enqueue(t, head))
      ensures var (c, prio) := (tasks[t].cpu, tasks[t].prio);
        c < rq.Length && prio < |old(rq[c].q.queues)| == |rq[c].q.queues|
        && RtFifo.Joined(old(rq[c].q.queues)[prio], rq[c].q.queues[prio], t, head)
    {
      var c := tasks[t].cpu;
      ghost var rqs := rq[..];
      NextKeeps(Abs(), Enqueue(t, head));
      AllLocal(rqs, tasks, c);
      hide RqOk, Cached, MaskOk, PriOk, EnqueueRq, RtFifo.Joined;
      EnqueueTaskRt(c, t, head);
      Rebuild(rqs, rq[..], tasks, c, rq[c]);
    }

    method DeactivateTask(t: Tid)
      requires Valid() && t in tasks && tasks[t].prio < MAX_RT_PRIO
      modifies rq, this`rtoMask, this`rtoCount, this`cpupri
      ensures Valid() && Abs() == Next(old(Abs()), Dequeue(t))
    {
      var c := tasks[t].cpu;
      ghost var rqs := rq[..];
      NextKeeps(Abs(), Dequeue(t));
      AllLocal(rqs, tasks, c);
      hide RqOk, Cached, MaskOk, PriOk, DequeueRq;
      DequeueTaskRt(c, t);
      Rebuild(rqs, rq[..], tasks, c, rq[c]);
    }

    /** `yield_task_rt` passes the running task and false. */
    method RequeueTask(t: Tid, head: bool)
      requires Valid() && t in tasks
      modifies rq
      ensures Valid() && Abs() == Next(old(Abs()), Requeue(t, head))
    {
      var c := tasks[t].cpu;
      ghost var rqs := rq[..];
      NextKeeps(Abs(), Requeue(t, head));
      AllLocal(rqs, tasks, c);
      hide RqOk, Cached, MaskOk, PriOk, RequeueRq;
      RequeueTaskRt(c, t, head);
      Rebuild(rqs, rq[..], tasks, c, rq[c]);
    }

    method ScheduleCpu(c: nat, offer: Offer)
      requires Valid() && c < rq.Length && OfferOk(rq[c].q, tasks, c, offer)
      modifies rq
      ensures Valid() && Abs() == Next(old(Abs()), RtModel.Step.Schedule(c, offer))
    {
      ghost var rqs := rq[..];
      NextKeeps(Abs(), RtModel.Step.Schedule(c, offer));
      AllLocal(rqs, tasks, c);
      hide RqOk, Cached, MaskOk, PriOk, Switch, OfferOk;
      Schedule(c, offer);
      Rebuild(rqs, rq[..], tasks, c, rq[c]);
    }

    /** A change to the table entry of a task that is off the queues. */
    method StoreTask(t: Tid, task: Task)
      requires Valid() && t in tasks && task.cpu < rq.Length
      requires !OnRq(Abs(), t)
      requires t == Home(Abs(), t).curr ==> task.cpu == tasks[t].cpu
      modifies this`tasks
      ensures Valid() && Abs() == old(Abs()).(tasks := old(tasks)[t := task])
    {
      TableKeeps(Abs(), t, task);
      forall c: nat | c < rq.Length ensures Cached(rq[c], tasks[t := task]) {
        AllLocal(rq[..], tasks, c);
        assert !Queued(Abs().rqs[c], tasks[t := task], t);
        TaskChangeCached(rq[c], tasks, c, t, task);
      }
      tasks := tasks[t := task];
    }

    method SetTaskCpu(t: Tid, cpu: nat)
      requires Valid() && Enabled(Abs(), RtModel.Step.SetTaskCpu(t, cpu))
      modifies this`tasks
      ensures Valid() && Abs() == Next(old(Abs()), RtModel.Step.SetTaskCpu(t, cpu))
    {
      StoreTask(t, tasks[t].(cpu := cpu));
    }

    method SetPrio(t: Tid, prio: nat)
      requires Valid() && Enabled(Abs(), RtModel.Step.SetPrio(t, prio))
      modifies this`tasks
      ensures Valid() && Abs() == Next(old(Abs()), RtModel.Step.SetPrio(t, prio))
    {
      StoreTask(t, tasks[t].(prio := prio));
    }

    /** `do_set_cpus_allowed` for a task of this class. */
    method SetCpusAllowed(t: Tid, mask: set<nat>)
      requires Valid() && t in tasks
      modifies rq, this`rtoMask, this`rtoCount, this`tasks
      ensures Valid() && Abs() == Next(old(Abs()), SetAffinity(t, mask))
    {
      var c := tasks[t].cpu;
      ghost var rqs := rq[..];
      NextKeeps(Abs(), SetAffinity(t, mask));
      AllLocal(rqs, tasks, c);
      AffinityCachedElsewhere(rqs, tasks, t, mask);
      hide RqOk, Cached, MaskOk, PriOk, AffinityRq;
      SetCpusAllowedRt(c, t, mask);
      tasks := tasks[t := tasks[t].(allowed := mask)];
      Rebuild(rqs[c := rq[c]], rq[..], tasks, c, rq[c]);
      ListsUpdate(rqs, c, rq[c]);
    }

    /** `rq_online_rt` within `set_rq_online`. */
    method RqOnline(c: nat)
      requires Valid() && c < rq.Length && !rq[c].q.online
      modifies rq, this`rtoMask, this`rtoCount, this`cpupri
      ensures Valid() && Abs() == Next(old(Abs()), SetOnline(c, true))
    {
      ghost var rqs := rq[..];
      var r := rq[c].(q := rq[c].q.(online := true));
      OnlineKeeps(rqs, tasks, rtoMask, rtoCount, cpupri, c, r);
      hide Coherent, Next, Lists;
      rq[c] := r;
      if r.overloaded {
        RtSetOverload(c);
      }
      cpupri := cpupri[c := r.hpCurr];
      assert rq[..] == rqs[c := r];
    }

    /** `rq_offline_rt` within `set_rq_offline`. */
    method RqOffline(c: nat)
      requires Valid() && c < rq.Length && rq[c].q.online
      modifies rq, this`rtoMask, this`rtoCount, this`cpupri
      ensures Valid() && Abs() == Next(old(Abs()), SetOnline(c, false))
    {
      ghost var rqs := rq[..];
      var r := rq[c].(q := rq[c].q.(online := false));
      OnlineKeeps(rqs, tasks, rtoMask, rtoCount, cpupri, c, r);
      hide Coherent, Next, Lists;
      if r.overloaded {
        RtClearOverload(c);
      }
      cpupri := cpupri[c := CPUPRI_INVALID];
      rq[c] := r;
      assert rq[..] == rqs[c := r];
    }

    /** The throttled flag, which the bandwidth code sets and clears. */
    method StoreThrottled(c: nat, throttled: bool)
      requires Valid() && c < rq.Length
      modifies rq
      ensures Valid() && Abs() == Next(old(Abs()), SetThrottled(c, throttled))
    {
      ghost var rqs := rq[..];
      NextKeeps(Abs(), SetThrottled(c, throttled));
      ghost var r := rq[c].(q := rq[c].q.(throttled := throttled));
      MaskUpdateSame(rqs, c, r);
      FlagsCached(rq[c], r, tasks);
      Rebuild(rqs, rqs[c := r], tasks, c, r);
      hide RqOk, Cached, ArrayCached;
      rq[c] := rq[c].(q := rq[c].q.(throttled := throttled));
      assert rq[..] == rqs[c := r];
    }
  }

  lemma ArrayCounts(r: RtRq, tasks: Tasks, t: Tid)
    requires ArrayCached(r, tasks)
    ensures Queued(r.q, tasks, t) && Migratory(tasks, t) ==> r.nrMigratory > 0
  {
    if Queued(r.q, tasks, t) {
      QueuedIsCounted(r, tasks, t);
    }
  }

  /** A queued task's new mask moves the migratory count by at most one. */
  lemma AffinityCached(r: RtRq, r': RtRq, tasks: Tasks, cpu: nat, t: Tid, mask: set<nat>)
    requires RqOk(r.q, tasks, cpu) && ArrayCached(r, tasks) && NextCached(r', tasks) && t in tasks
    requires r'.q == r.q.(pushable := r'.q.pushable)
    requires r' == r.(q := r'.q, hpNext := r'.hpNext, nrMigratory := r'.nrMigratory, overloaded := r'.overloaded)
    requires !Queued(r.q, tasks, t) ==> r'.nrMigratory == r.nrMigratory
    requires Queued(r.q, tasks, t) ==>
      r'.nrMigratory == r.nrMigratory - (if Migratory(tasks, t) then 1 else 0) + (if |mask| > 1 then 1 else 0)
    requires r'.overloaded == IsOverloaded(r')
    ensures Cached(r', tasks[t := tasks[t].(allowed := mask)])
  {
    var tasks' := tasks[t := tasks[t].(allowed := mask)];
    assert forall u :: Queued(r'.q, tasks', u) <==> Queued(r.q, tasks, u);
    AffinityCounts(r.q, r'.q, tasks, tasks', t);
    hide Queued, Migratory, QueuedSet, MigratorySet;
  }

  lemma AffinityCounts(q: Rq, q': Rq, tasks: Tasks, tasks': Tasks, t: Tid)
    requires t in tasks && tasks.Keys == tasks'.Keys && forall u | u in tasks && u != t :: tasks'[u] == tasks[u]
    requires forall u :: Queued(q', tasks', u) <==> Queued(q, tasks, u)
    ensures |QueuedSet(q', tasks')| == |QueuedSet(q, tasks)|
    ensures !Queued(q, tasks, t) ==> |MigratorySet(q', tasks')| == |MigratorySet(q, tasks)|
    ensures Queued(q, tasks, t) ==>
      |MigratorySet(q', tasks')| == |MigratorySet(q, tasks)| - (if Migratory(tasks, t) then 1 else 0)
                                                            + (if Migratory(tasks', t) then 1 else 0)
  {
    assert forall u | u != t :: Migratory(tasks', u) == Migratory(tasks, u);
    hide Queued, Migratory;
    var before, after := MigratorySet(q, tasks), MigratorySet(q', tasks');
    assert QueuedSet(q', tasks') == QueuedSet(q, tasks);
    assert after - {t} == before - {t};
    WithoutOne(after, t);
    WithoutOne(before, t);
  }

  lemma WithoutOne(s: set<Tid>, t: Tid)
    ensures |s - {t}| == |s| - if t in s then 1 else 0
  {
  }

  lemma AffinityCachedElsewhere(rqs: seq<RtRq>, tasks: Tasks, t: Tid, mask: set<nat>)
    requires Ok(System(Lists(rqs), tasks)) && t in tasks
    requires forall k: nat | k < |rqs| :: Cached(rqs[k], tasks)
    ensures var tasks' := tasks[t := tasks[t].(allowed := mask)];
      forall k: nat | k < |rqs| && k != tasks[t].cpu :: Cached(rqs[k], tasks')
  {
    forall k: nat | k < |rqs| && k != tasks[t].cpu
      ensures Cached(rqs[k], tasks[t := tasks[t].(allowed := mask)])
    {
      AllLocal(rqs, tasks, k);
      if Queued(rqs[k].q, tasks, t) {
        QueuedIsHere(System(Lists(rqs), tasks), k, t);
        assert false;
      }
      AffinityCached(rqs[k], rqs[k], tasks, k, t, mask);
    }
  }

  lemma AllLocal(rqs: seq<RtRq>, tasks: Tasks, c: nat)
    requires Ok(System(Lists(rqs), tasks)) && c < |rqs|
    ensures RqOk(rqs[c].q, tasks, c)
  {
    assert RqOk(Lists(rqs)[c], tasks, c);
  }

  lemma OnlineNext(s: System, c: nat, online: bool)
    requires Ok(s) && c < |s.rqs|
    ensures var s' := System(s.rqs[c := s.rqs[c].(online := online)], s.tasks);
      Ok(s') && s' == Next(s, SetOnline(c, online))
  {
    NextKeeps(s, SetOnline(c, online));
  }

  lemma OnlineKeeps(rqs: seq<RtRq>, tasks: Tasks, mask: set<nat>, count: nat, cpupri: seq<int>, c: nat, r: RtRq)
    requires Coherent(rqs, tasks, mask, count, cpupri) && c < |rqs| && rqs[c].q.online != r.q.online
    requires r == rqs[c].(q := rqs[c].q.(online := r.q.online))
    ensures var mask' := if r.q.online && r.overloaded then mask + {c} else mask - {c};
      Coherent(rqs[c := r], tasks, mask', |mask'|, cpupri[c := if r.q.online then r.hpCurr else CPUPRI_INVALID])
    ensures System(Lists(rqs[c := r]), tasks) == Next(System(Lists(rqs), tasks), SetOnline(c, r.q.online))
    ensures |cpupri| == |rqs| && count == |mask| && (c in mask <==> rqs[c].q.online && rqs[c].overloaded)
    ensures c !in mask ==> mask - {c} == mask
  {
    hide Ok, Cached, OverloadedCpus, Next, Lists, PriOk;
    ListsUpdate(rqs, c, r);
    OnlineNext(System(Lists(rqs), tasks), c, r.q.online);
    FlagsCached(rqs[c], r, tasks);
    MaskUpdate(rqs, c, r);
    PriUpdate(rqs, cpupri, c, r);
    Rebuild(rqs, rqs[c := r], tasks, c, r);
  }

  lemma FlagsCached(r: RtRq, r': RtRq, tasks: Tasks)
    requires Cached(r, tasks)
    requires r' == r.(q := r.q.(online := r'.q.online, throttled := r'.q.throttled))
    ensures Cached(r', tasks)
  {
    assert forall t :: Queued(r'.q, tasks, t) <==> Queued(r.q, tasks, t);
    assert QueuedSet(r'.q, tasks) == QueuedSet(r.q, tasks);
    assert MigratorySet(r'.q, tasks) == MigratorySet(r.q, tasks);
  }

  lemma TaskChangeCached(r: RtRq, tasks: Tasks, cpu: nat, t: Tid, task: Task)
    requires RqOk(r.q, tasks, cpu) && Cached(r, tasks) && t in tasks
    requires !Queued(r.q, tasks, t) && !Queued(r.q, tasks[t := task], t)
    ensures Cached(r, tasks[t := task])
  {
    var tasks' := tasks[t := task];
    assert forall u :: Queued(r.q, tasks', u) <==> Queued(r.q, tasks, u);
    assert QueuedSet(r.q, tasks') == QueuedSet(r.q, tasks);
    assert MigratorySet(r.q, tasks') == MigratorySet(r.q, tasks);
    assert t !in r.q.pushable;
  }

  lemma QueuedIsRt(q: Rq, tasks: Tasks, c: nat, t: Tid)
    requires QueuesOk(q, tasks, c)
    ensures Queued(q, tasks, t) ==> tasks[t].prio < MAX_RT_PRIO
  {
  }

  lemma PutPrevLists(q: Rq, tasks: Tasks)
    requires PlistOk(q.pushable, tasks)
    ensures PutPrev(q, tasks) == q.(pushable := PutPrev(q, tasks).pushable)
  {
  }

  lemma PutPrevKeeps(q: Rq, tasks: Tasks, c: nat)
    requires RqOk(q, tasks, c)
    ensures PlistOk(q.pushable, tasks) && QueuesOk(q, tasks, c) && |q.queues| == MAX_RT_PRIO
    ensures PlistOk(PutPrev(q, tasks).pushable, tasks) && QueuesOk(PutPrev(q, tasks), tasks, c)
    ensures Best(PutPrev(q, tasks)) == Best(q)
  {
    PlistAddKeeps(q, tasks, q.curr);
  }

  lemma RequeueCached(r: RtRq, r': RtRq, tasks: Tasks, cpu: nat, t: Tid, head: bool)
    requires QueuesOk(r.q, tasks, cpu) && Cached(r, tasks) && t in tasks
    requires r' == r.(q := RequeueRq(r.q, tasks, t, head)) && r'.q == r.q.(queues := r'.q.queues)
    requires forall u :: Queued(r'.q, tasks, u) <==> Queued(r.q, tasks, u)
    ensures Cached(r', tasks)
  {
    assert QueuedSet(r'.q, tasks) == QueuedSet(r.q, tasks);
    assert MigratorySet(r'.q, tasks) == MigratorySet(r.q, tasks);
    BestIs(r'.q, Best(r.q));
  }

  lemma RunningIffOccupied(r: RtRq, tasks: Tasks, cpu: nat)
    requires QueuesOk(r.q, tasks, cpu) && ArrayCached(r, tasks)
    ensures r.nrRunning != 0 <==> Best(r.q) < MAX_RT_PRIO
  {
    if Best(r.q) < MAX_RT_PRIO {
      FrontIsQueued(r.q, tasks, cpu);
      QueuedIsCounted(r, tasks, r.q.queues[Best(r.q)][0]);
    } else if r.nrRunning != 0 {
      var t :| t in QueuedSet(r.q, tasks);
      BestIsMostUrgent(r.q, tasks, cpu, t);
      assert false;
    }
  }

  lemma PushableOnly(r: RtRq, r': RtRq, tasks: Tasks)
    requires ArrayCached(r, tasks)
    requires r' == r.(q := r.q.(pushable := r'.q.pushable, curr := r'.q.curr), hpNext := r'.hpNext)
    ensures ArrayCached(r', tasks)
  {
    assert forall t :: Queued(r'.q, tasks, t) <==> Queued(r.q, tasks, t);
    assert QueuedSet(r'.q, tasks) == QueuedSet(r.q, tasks);
    assert MigratorySet(r'.q, tasks) == MigratorySet(r.q, tasks);
  }

  /** One queue changed, and what changed it kept its caches. */
  lemma Rebuild(rqs: seq<RtRq>, rqs': seq<RtRq>, tasks: Tasks, c: nat, r: RtRq)
    requires c < |rqs| && rqs' == rqs[c := r] && Cached(r, tasks)
    requires forall k: nat | k < |rqs| :: Cached(rqs[k], tasks)
    ensures forall k: nat | k < |rqs'| :: Cached(rqs'[k], tasks)
    ensures Lists(rqs') == Lists(rqs)[c := r.q]
  {
  }

  lemma HeadAfterAdd(q: Rq, tasks: Tasks, t: Tid)
    requires PlistOk(q.pushable, tasks) && t in tasks && tasks[t].prio < MAX_RT_PRIO
    ensures forall u <- PlistAdd(q, tasks, t).pushable :: u in tasks
    ensures HeadPrio(PlistAdd(q, tasks, t).pushable, tasks)
         == if tasks[t].prio < HeadPrio(q.pushable, tasks) then tasks[t].prio else HeadPrio(q.pushable, tasks)
  {
    PlistAddKeeps(q, tasks, t);
  }

  /** With one entry fewer and none left, no level is occupied. */
  lemma UnlinkLeaves(r: RtRq, tasks: Tasks, cpu: nat, t: Tid)
    requires QueuesOk(r.q, tasks, cpu) && ArrayCached(r, tasks) && Queued(r.q, tasks, t)
    ensures r.hpCurr <= tasks[t].prio
    ensures r.nrRunning == 1 ==> Best(Unlink(r.q, tasks, t)) == MAX_RT_PRIO && r.hpCurr == tasks[t].prio
  {
    UnlinkKeeps(r.q, tasks, cpu, t);
    BestIsMostUrgent(r.q, tasks, cpu, t);
    var q' := Unlink(r.q, tasks, t);
    hide Unlink, QueuesOk, Bits, Migratory;
    if r.nrRunning == 1 {
      OnlyOne(QueuedSet(r.q, tasks), t);
      assert forall u :: Queued(r.q, tasks, u) ==> u in QueuedSet(r.q, tasks);
      NoneQueued(q', tasks, cpu);
      assert r.q.queues[Best(r.q)][0] in QueuedSet(r.q, tasks);
    }
  }

  lemma OnlyOne(s: set<Tid>, t: Tid)
    requires t in s && |s| == 1
    ensures s == {t}
  {
    assert s == {t} + (s - {t});
  }

  lemma NoneQueued(q: Rq, tasks: Tasks, cpu: nat)
    requires QueuesOk(q, tasks, cpu) && forall u :: !Queued(q, tasks, u)
    ensures Best(q) == MAX_RT_PRIO
  {
    if Best(q) < MAX_RT_PRIO {
      FrontIsQueued(q, tasks, cpu);
    }
  }
}
