/** The real-time run queues without their caches: per CPU the hundred priority lists, the
    pushable list, the current task and two flags; and one table of tasks.

    This is the simple form.  `RtRunqueue` holds the fields the C code keeps up to date
    beside it (bitmap, counters, best priorities, overload mask) and proves that they are
    functions of this state. */
module RtModel {
  import opened TaskLists

  const MAX_RT_PRIO: nat := 100

  /** `prio` counts downwards: 0 is the most urgent, 100 and above is not real-time. */
  datatype Task = Task(prio: nat, allowed: set<nat>, cpu: nat)

  type Tasks = map<Tid, Task>

  datatype Rq = Rq(queues: seq<seq<Tid>>, pushable: seq<Tid>, curr: Tid, online: bool, throttled: bool)

  datatype System = System(rqs: seq<Rq>, tasks: Tasks)

  // ---------------------------------------------------------------------------
  // lists
  // ---------------------------------------------------------------------------

  /** `plist_add`: behind every task that is at least as urgent. */
  function Insert(s: seq<Tid>, tasks: Tasks, t: Tid): seq<Tid>
    requires t in tasks && forall u <- s :: u in tasks
  {
    if s == [] || tasks[t].prio < tasks[s[0]].prio then [t] + s
    else [s[0]] + Insert(s[1..], tasks, t)
  }

  predicate Sorted(s: seq<Tid>, tasks: Tasks)
    requires forall u <- s :: u in tasks
  {
    forall i: nat, j: nat :: i < j < |s| ==> tasks[s[i]].prio <= tasks[s[j]].prio
  }

  /** The pushable list: most urgent first, each task once. */
  predicate PlistOk(s: seq<Tid>, tasks: Tasks) {
    Unique(s) && (forall t <- s :: t in tasks) && Sorted(s, tasks)
  }

  lemma {:induction false} RemoveSorted(s: seq<Tid>, tasks: Tasks, t: Tid)
    requires PlistOk(s, tasks)
    ensures PlistOk(Remove(s, t), tasks)
  {
    hide PlistOk;
    ConsOk(s, tasks);
    if s != [] && s[0] != t {
      RemoveSorted(s[1..], tasks, t);
      RemoveMembers(s[1..], t);
      OkCons(s[0], Remove(s[1..], t), tasks);
    }
  }

  lemma {:induction false} InsertKeeps(s: seq<Tid>, tasks: Tasks, t: Tid)
    requires t in tasks && PlistOk(s, tasks) && t !in s
    ensures forall u :: u in Insert(s, tasks, t) <==> u in s || u == t
    ensures PlistOk(Insert(s, tasks, t), tasks)
  {
    hide PlistOk;
    ConsOk(s, tasks);
    if s != [] && tasks[t].prio >= tasks[s[0]].prio {
      InsertKeeps(s[1..], tasks, t);
      OkCons(s[0], Insert(s[1..], tasks, t), tasks);
    } else {
      OkCons(t, s, tasks);
    }
  }

  lemma ConsOk(s: seq<Tid>, tasks: Tasks)
    requires PlistOk(s, tasks)
    ensures forall u <- s :: u in tasks
    ensures s != [] ==>
      && PlistOk(s[1..], tasks) && s[0] !in s[1..] && s == [s[0]] + s[1..]
      && (forall u :: u in s <==> u == s[0] || u in s[1..])
      && forall u <- s :: tasks[s[0]].prio <= tasks[u].prio
  {
  }

  lemma OkCons(t: Tid, s: seq<Tid>, tasks: Tasks)
    requires PlistOk(s, tasks) && t in tasks && t !in s
    requires forall u <- s :: u in tasks && tasks[t].prio <= tasks[u].prio
    ensures PlistOk([t] + s, tasks)
    ensures forall u :: u in [t] + s <==> u == t || u in s
  {
  }

  // ---------------------------------------------------------------------------
  // the invariant
  // ---------------------------------------------------------------------------

  predicate QueueOk(queue: seq<Tid>, tasks: Tasks, cpu: nat, prio: nat) {
    && Unique(queue)
    && forall t <- queue :: t in tasks && tasks[t].prio == prio && tasks[t].cpu == cpu
  }

  /** Every entry of list `i` is a task of priority `i` on this CPU, listed once. */
  predicate QueuesOk(q: Rq, tasks: Tasks, cpu: nat) {
    && |q.queues| == MAX_RT_PRIO
    && forall i: nat | i < MAX_RT_PRIO :: QueueOk(q.queues[i], tasks, cpu, i)
  }

  /** `on_rt_rq` on this queue. */
  predicate Queued(q: Rq, tasks: Tasks, t: Tid) {
    t in tasks && tasks[t].prio < |q.queues| && t in q.queues[tasks[t].prio]
  }

  predicate Migratory(tasks: Tasks, t: Tid) {
    t in tasks && |tasks[t].allowed| > 1
  }

  /** What the pushable list ought to hold. */
  predicate Pushable(q: Rq, tasks: Tasks, t: Tid) {
    Queued(q, tasks, t) && t != q.curr && Migratory(tasks, t)
  }

  ghost predicate PushOk(q: Rq, tasks: Tasks) {
    PlistOk(q.pushable, tasks) && forall t :: t in q.pushable <==> Pushable(q, tasks, t)
  }

  predicate CurrOk(q: Rq, tasks: Tasks, cpu: nat) {
    q.curr in tasks && tasks[q.curr].cpu == cpu
  }

  ghost predicate RqOk(q: Rq, tasks: Tasks, cpu: nat) {
    QueuesOk(q, tasks, cpu) && PushOk(q, tasks) && CurrOk(q, tasks, cpu)
  }

  ghost predicate Ok(s: System) {
    && (forall c: nat | c < |s.rqs| :: RqOk(s.rqs[c], s.tasks, c))
    && (forall t <- s.tasks :: s.tasks[t].cpu < |s.rqs|)
  }

  // ---------------------------------------------------------------------------
  // changing one queue
  // ---------------------------------------------------------------------------

  function PlistAdd(q: Rq, tasks: Tasks, t: Tid): Rq
    requires PlistOk(q.pushable, tasks) && t in tasks
  {
    RemoveKeeps(q.pushable, t);
    q.(pushable := Insert(Remove(q.pushable, t), tasks, t))
  }

  function PlistDel(q: Rq, t: Tid): Rq {
    q.(pushable := Remove(q.pushable, t))
  }

  function Unlink(q: Rq, tasks: Tasks, t: Tid): Rq
    requires t in tasks && tasks[t].prio < |q.queues|
  {
    var i := tasks[t].prio;
    q.(queues := q.queues[i := Remove(q.queues[i], t)])
  }

  function Link(q: Rq, tasks: Tasks, t: Tid, head: bool): Rq
    requires t in tasks && tasks[t].prio < |q.queues|
  {
    var i := tasks[t].prio;
    q.(queues := q.queues[i := AddTo(q.queues[i], t, head)])
  }

  /** `enqueue_task_rt`: a task that is already queued is taken off first. */
  function EnqueueRq(q: Rq, tasks: Tasks, t: Tid, head: bool): Rq
    requires t in tasks && tasks[t].prio < |q.queues| && PlistOk(q.pushable, tasks)
  {
    var linked := Link(Unlink(q, tasks, t), tasks, t, head);
    if t != q.curr && Migratory(tasks, t) then PlistAdd(linked, tasks, t) else linked
  }

  /** `dequeue_task_rt`. */
  function DequeueRq(q: Rq, tasks: Tasks, t: Tid): Rq
    requires t in tasks && tasks[t].prio < |q.queues|
  {
    PlistDel(Unlink(q, tasks, t), t)
  }

  /** `requeue_task_rt`: to one end of its list, if it is on it. */
  function RequeueRq(q: Rq, tasks: Tasks, t: Tid, head: bool): Rq
    requires t in tasks
  {
    if Queued(q, tasks, t) then Link(Unlink(q, tasks, t), tasks, t, head) else q
  }

  /** The lists' first task of the most urgent non-empty level. */
  function FrontFrom(queues: seq<seq<Tid>>, i: nat): (r: nat)
    requires i <= |queues|
    ensures i <= r <= |queues|
    ensures forall j: nat | i <= j < r :: queues[j] == []
    ensures r < |queues| ==> queues[r] != []
    decreases |queues| - i
  {
    if i == |queues| || queues[i] != [] then i else FrontFrom(queues, i + 1)
  }

  function Best(q: Rq): nat {
    FrontFrom(q.queues, 0)
  }

  /** What the other classes offer when the scheduler runs: a stop task goes before every
      real-time task, `fallback` is the fair or idle task taken when no real-time task is. */
  datatype Offer = Offer(stop: bool, fallback: Tid)

  /** `put_prev_task_rt`. */
  function PutPrev(q: Rq, tasks: Tasks): Rq
    requires PlistOk(q.pushable, tasks)
  {
    if Queued(q, tasks, q.curr) && Migratory(tasks, q.curr) then PlistAdd(q, tasks, q.curr) else q
  }

  /** `put_prev_task`, `pick_next_task` and the switch of `rq->curr`. */
  function Switch(q: Rq, tasks: Tasks, offer: Offer): Rq
    requires PlistOk(q.pushable, tasks)
  {
    var q' := PutPrev(q, tasks);
    if offer.stop || q.throttled || Best(q) == |q.queues| then q'.(curr := offer.fallback)
    else
      var next := q.queues[Best(q)][0];
      PlistDel(q', next).(curr := next)
  }

  /** `set_cpus_allowed_rt`, which runs before the mask itself is stored. */
  function AffinityRq(q: Rq, tasks: Tasks, t: Tid, weight: nat): Rq
    requires t in tasks && PlistOk(q.pushable, tasks)
  {
    if !Queued(q, tasks, t) || weight == |tasks[t].allowed| || t == q.curr then q
    else
      RemoveKeeps(q.pushable, t);
      RemoveSorted(q.pushable, tasks, t);
      var q' := if Migratory(tasks, t) then PlistDel(q, t) else q;
      if weight > 1 then PlistAdd(q', tasks, t) else q'
  }

  lemma PlistDelKeeps(q: Rq, tasks: Tasks, t: Tid)
    requires PlistOk(q.pushable, tasks)
    ensures PlistOk(PlistDel(q, t).pushable, tasks)
    ensures forall u :: u in PlistDel(q, t).pushable <==> u in q.pushable && u != t
  {
    RemoveKeeps(q.pushable, t);
    RemoveSorted(q.pushable, tasks, t);
  }

  lemma PlistAddKeeps(q: Rq, tasks: Tasks, t: Tid)
    requires PlistOk(q.pushable, tasks) && t in tasks
    ensures PlistOk(PlistAdd(q, tasks, t).pushable, tasks)
    ensures forall u :: u in PlistAdd(q, tasks, t).pushable <==> u in q.pushable || u == t
  {
    RemoveKeeps(q.pushable, t);
    RemoveSorted(q.pushable, tasks, t);
    InsertKeeps(Remove(q.pushable, t), tasks, t);
  }

  lemma UnlinkKeeps(q: Rq, tasks: Tasks, cpu: nat, t: Tid)
    requires QueuesOk(q, tasks, cpu) && t in tasks && tasks[t].prio < MAX_RT_PRIO
    ensures QueuesOk(Unlink(q, tasks, t), tasks, cpu)
    ensures forall u :: Queued(Unlink(q, tasks, t), tasks, u) <==> Queued(q, tasks, u) && u != t
    ensures !Queued(q, tasks, t) ==> Unlink(q, tasks, t) == q
  {
    var i := tasks[t].prio;
    assert QueueOk(q.queues[i], tasks, cpu, i);
    RemoveKeeps(q.queues[i], t);
    assert !Queued(q, tasks, t) ==> q.queues[i := q.queues[i]] == q.queues;
  }

  lemma LinkKeeps(q: Rq, tasks: Tasks, cpu: nat, t: Tid, head: bool)
    requires QueuesOk(q, tasks, cpu) && t in tasks && tasks[t].prio < MAX_RT_PRIO
    requires tasks[t].cpu == cpu && !Queued(q, tasks, t)
    ensures QueuesOk(Link(q, tasks, t, head), tasks, cpu)
    ensures forall u :: Queued(Link(q, tasks, t, head), tasks, u) <==> Queued(q, tasks, u) || u == t
  {
  }

  lemma EnqueueKeeps(q: Rq, tasks: Tasks, cpu: nat, t: Tid, head: bool)
    requires RqOk(q, tasks, cpu) && t in tasks && tasks[t].prio < MAX_RT_PRIO && tasks[t].cpu == cpu
    ensures RqOk(EnqueueRq(q, tasks, t, head), tasks, cpu)
    ensures forall u :: Queued(EnqueueRq(q, tasks, t, head), tasks, u) <==> Queued(q, tasks, u) || u == t
  {
    UnlinkKeeps(q, tasks, cpu, t);
    LinkKeeps(Unlink(q, tasks, t), tasks, cpu, t, head);
    PlistAddKeeps(q, tasks, t);
    hide Remove, Insert, Sorted, Unique, AddTo;
    var q' := EnqueueRq(q, tasks, t, head);
    forall u ensures u in q'.pushable <==> Pushable(q', tasks, u) {
      assert u in q.pushable <==> Pushable(q, tasks, u);
    }
  }

  lemma DequeueKeeps(q: Rq, tasks: Tasks, cpu: nat, t: Tid)
    requires RqOk(q, tasks, cpu) && t in tasks && tasks[t].prio < MAX_RT_PRIO
    ensures RqOk(DequeueRq(q, tasks, t), tasks, cpu)
    ensures forall u :: Queued(DequeueRq(q, tasks, t), tasks, u) <==> Queued(q, tasks, u) && u != t
  {
    UnlinkKeeps(q, tasks, cpu, t);
    PlistDelKeeps(q, tasks, t);
    hide Remove, Sorted, Unique;
    var q' := DequeueRq(q, tasks, t);
    forall u ensures u in q'.pushable <==> Pushable(q', tasks, u) {
      assert u in q.pushable <==> Pushable(q, tasks, u);
    }
  }

  lemma RequeueKeeps(q: Rq, tasks: Tasks, cpu: nat, t: Tid, head: bool)
    requires RqOk(q, tasks, cpu) && t in tasks
    ensures RqOk(RequeueRq(q, tasks, t, head), tasks, cpu)
    ensures forall u :: Queued(RequeueRq(q, tasks, t, head), tasks, u) <==> Queued(q, tasks, u)
  {
    if Queued(q, tasks, t) {
      assert QueueOk(q.queues[tasks[t].prio], tasks, cpu, tasks[t].prio);
      UnlinkKeeps(q, tasks, cpu, t);
      LinkKeeps(Unlink(q, tasks, t), tasks, cpu, t, head);
      hide Sorted, Unique, Unlink, Link, QueuesOk;
      var q' := RequeueRq(q, tasks, t, head);
      RequeuePushable(q, tasks, t, head);
      forall u ensures u in q'.pushable <==> Pushable(q', tasks, u) {
        assert u in q.pushable <==> Pushable(q, tasks, u);
      }
    }
  }

  lemma RequeuePushable(q: Rq, tasks: Tasks, t: Tid, head: bool)
    requires t in tasks
    ensures RequeueRq(q, tasks, t, head).pushable == q.pushable
    ensures RequeueRq(q, tasks, t, head).curr == q.curr
  {
  }

  /** The chosen task is the front of the most urgent occupied level. */
  lemma BestIsMostUrgent(q: Rq, tasks: Tasks, cpu: nat, t: Tid)
    requires QueuesOk(q, tasks, cpu) && Queued(q, tasks, t)
    ensures Best(q) <= tasks[t].prio
    ensures var next := q.queues[Best(q)][0];
            Queued(q, tasks, next) && tasks[next].prio == Best(q) && tasks[next].cpu == cpu
  {
  }

  lemma FrontIsQueued(q: Rq, tasks: Tasks, cpu: nat)
    requires QueuesOk(q, tasks, cpu) && Best(q) < MAX_RT_PRIO
    ensures var next := q.queues[Best(q)][0];
            Queued(q, tasks, next) && tasks[next].prio == Best(q) && tasks[next].cpu == cpu
  {
  }

  predicate OfferOk(q: Rq, tasks: Tasks, cpu: nat, offer: Offer) {
    offer.fallback in tasks && tasks[offer.fallback].cpu == cpu && !Queued(q, tasks, offer.fallback)
  }

  lemma SwitchKeeps(q: Rq, tasks: Tasks, cpu: nat, offer: Offer)
    requires RqOk(q, tasks, cpu) && OfferOk(q, tasks, cpu, offer)
    ensures RqOk(Switch(q, tasks, offer), tasks, cpu)
    ensures Switch(q, tasks, offer).queues == q.queues
  {
    var p := PutPrev(q, tasks);
    PlistAddKeeps(q, tasks, q.curr);
    assert forall u :: u in q.pushable <==> Pushable(q, tasks, u);
    assert forall u :: u in p.pushable <==> Queued(q, tasks, u) && Migratory(tasks, u);
    var r := Switch(q, tasks, offer);
    if !(offer.stop || q.throttled || Best(q) == |q.queues|) {
      FrontIsQueued(q, tasks, cpu);
      PlistDelKeeps(p, tasks, q.queues[Best(q)][0]);
    }
    hide Remove, Insert, Sorted, Unique, PutPrev, PlistOk;
    forall u ensures u in r.pushable <==> Pushable(r, tasks, u) {
      assert Queued(r, tasks, u) == Queued(q, tasks, u);
    }
  }

  // ---------------------------------------------------------------------------
  // changing the task table
  // ---------------------------------------------------------------------------

  /** A task that is not queued, and runs nowhere unless its CPU stays, may change. */
  lemma TaskChangeKeeps(q: Rq, tasks: Tasks, cpu: nat, t: Tid, task: Task)
    requires RqOk(q, tasks, cpu) && t in tasks && !Queued(q, tasks, t)
    requires t == q.curr ==> task.cpu == cpu
    ensures RqOk(q, tasks[t := task], cpu)
    ensures forall u | u != t :: Queued(q, tasks[t := task], u) == Queued(q, tasks, u)
    ensures !Queued(q, tasks[t := task], t)
  {
    var tasks' := tasks[t := task];
    forall i: nat | i < MAX_RT_PRIO
      ensures t !in q.queues[i] && QueueOk(q.queues[i], tasks', cpu, i)
    {
      assert QueueOk(q.queues[i], tasks, cpu, i);
    }
    assert t !in q.pushable;
    assert Sorted(q.pushable, tasks');
    forall u ensures u in q.pushable <==> Pushable(q, tasks', u) {
      assert u in q.pushable <==> Pushable(q, tasks, u);
    }
  }

  /** Storing a new mask of the announced weight after `set_cpus_allowed_rt`. */
  lemma AffinityKeeps(q: Rq, tasks: Tasks, cpu: nat, t: Tid, mask: set<nat>)
    requires RqOk(q, tasks, cpu) && t in tasks
    ensures RqOk(AffinityRq(q, tasks, t, |mask|), tasks[t := tasks[t].(allowed := mask)], cpu)
    ensures AffinityRq(q, tasks, t, |mask|).queues == q.queues
    ensures AffinityRq(q, tasks, t, |mask|).curr == q.curr
  {
    var tasks' := tasks[t := tasks[t].(allowed := mask)];
    var q' := AffinityRq(q, tasks, t, |mask|);
    AffinityMembers(q, tasks, t, |mask|);
    assert PlistOk(q'.pushable, tasks');
    forall i: nat | i < MAX_RT_PRIO
      ensures QueueOk(q.queues[i], tasks', cpu, i)
    {
      assert QueueOk(q.queues[i], tasks, cpu, i);
    }
    forall u ensures u in q'.pushable <==> Pushable(q', tasks', u) {
      assert u in q.pushable <==> Pushable(q, tasks, u);
    }
  }

  lemma AffinityMembers(q: Rq, tasks: Tasks, t: Tid, weight: nat)
    requires PlistOk(q.pushable, tasks) && t in tasks
    ensures var q' := AffinityRq(q, tasks, t, weight);
            && PlistOk(q'.pushable, tasks) && q' == q.(pushable := q'.pushable)
            && (!Queued(q, tasks, t) || weight == |tasks[t].allowed| || t == q.curr ==> q' == q)
            && (Queued(q, tasks, t) && weight != |tasks[t].allowed| && t != q.curr
                ==> forall u :: u in q'.pushable <==>
                      if u == t then weight > 1 || (!Migratory(tasks, t) && t in q.pushable) else u in q.pushable)
  {
    if !(!Queued(q, tasks, t) || weight == |tasks[t].allowed| || t == q.curr) {
      PlistDelKeeps(q, tasks, t);
      var d := if Migratory(tasks, t) then PlistDel(q, t) else q;
      PlistAddKeeps(d, tasks, t);
    }
  }

  // ---------------------------------------------------------------------------
  // steps of the whole system
  // ---------------------------------------------------------------------------

  datatype Step =
    | Enqueue(t: Tid, head: bool)
    | Dequeue(t: Tid)
    | Requeue(t: Tid, head: bool)
    | Schedule(cpu: nat, offer: Offer)
    | SetPrio(t: Tid, prio: nat)
    | SetTaskCpu(t: Tid, cpu: nat)
    | SetAffinity(t: Tid, mask: set<nat>)
    | SetOnline(cpu: nat, online: bool)
    | SetThrottled(cpu: nat, throttled: bool)
    | Push(cpu: nat, t: Tid, dest: nat)
    | Pull(cpu: nat, src: nat, t: Tid)

  function Home(s: System, t: Tid): Rq
    requires Ok(s) && t in s.tasks
  {
    s.rqs[s.tasks[t].cpu]
  }

  predicate OnRq(s: System, t: Tid)
    requires Ok(s)
  {
    t in s.tasks && Queued(Home(s, t), s.tasks, t)
  }

  /** What the callers guarantee.  Priority and CPU only change while a task is off the
      queues, and a running task stays where it is; the rest of the kernel sees to it. */
  predicate Enabled(s: System, step: Step)
    requires Ok(s)
  {
    match step
    case Enqueue(t, _) => t in s.tasks && s.tasks[t].prio < MAX_RT_PRIO
    case Dequeue(t) => t in s.tasks && s.tasks[t].prio < MAX_RT_PRIO
    case Requeue(t, _) => t in s.tasks
    case Schedule(c, offer) => c < |s.rqs| && OfferOk(s.rqs[c], s.tasks, c, offer)
    case SetPrio(t, _) => t in s.tasks && !OnRq(s, t)
    case SetTaskCpu(t, c) => t in s.tasks && !OnRq(s, t) && c < |s.rqs| && t != Home(s, t).curr
    case SetAffinity(t, _) => t in s.tasks
    case SetOnline(c, _) => c < |s.rqs|
    case SetThrottled(c, _) => c < |s.rqs|
    case Push(c, t, dest) => MayPush(s, c, t, dest)
    case Pull(c, src, t) => MayPull(s, c, src, t)
  }

  /** A task that `push_rt_task` still holds: queued on its CPU and not running. */
  predicate Held(s: System, cpu: nat, t: Tid)
    requires Ok(s)
  {
    cpu < |s.rqs| && Queued(s.rqs[cpu], s.tasks, t) && t != s.rqs[cpu].curr
  }

  /** `push_rt_task` moves a task that it holds to an allowed CPU where it outranks everything
      queued.  It was the head of the pushable list and no more urgent than the current task
      when it was chosen, but the lock may have been dropped since. */
  predicate MayPush(s: System, cpu: nat, t: Tid, dest: nat)
    requires Ok(s)
  {
    && Held(s, cpu, t) && dest < |s.rqs| && cpu != dest
    && dest in s.tasks[t].allowed
    && s.tasks[t].prio < Best(s.rqs[dest])
  }

  /** `pull_rt_task` takes an eligible task that outranks everything queued here but not
      what its own CPU is running. */
  predicate MayPull(s: System, cpu: nat, src: nat, t: Tid)
    requires Ok(s)
  {
    && cpu < |s.rqs| && src < |s.rqs| && cpu != src
    && Pushable(s.rqs[src], s.tasks, t)
    && cpu in s.tasks[t].allowed
    && s.tasks[t].prio < Best(s.rqs[cpu])
    && s.tasks[s.rqs[src].curr].prio <= s.tasks[t].prio
  }

  /** Deactivate, `set_task_cpu`, activate. */
  function Move(s: System, t: Tid, dest: nat): System
    requires Ok(s) && t in s.tasks && s.tasks[t].prio < MAX_RT_PRIO && dest < |s.rqs|
    requires s.tasks[t].cpu != dest
  {
    var task := s.tasks[t];
    var tasks' := s.tasks[t := task.(cpu := dest)];
    assert RqOk(s.rqs[dest], s.tasks, dest);
    assert RqOk(s.rqs[task.cpu], s.tasks, task.cpu);
    assert forall u <- s.rqs[dest].pushable :: u in s.tasks;
    assert Sorted(s.rqs[dest].pushable, tasks');
    System(s.rqs[task.cpu := DequeueRq(s.rqs[task.cpu], s.tasks, t)]
                [dest := EnqueueRq(s.rqs[dest], tasks', t, false)], tasks')
  }

  function Next(s: System, step: Step): System
    requires Ok(s) && Enabled(s, step)
  {
    match step
    case Enqueue(t, head) =>
      s.(rqs := s.rqs[s.tasks[t].cpu := EnqueueRq(Home(s, t), s.tasks, t, head)])
    case Dequeue(t) =>
      s.(rqs := s.rqs[s.tasks[t].cpu := DequeueRq(Home(s, t), s.tasks, t)])
    case Requeue(t, head) =>
      s.(rqs := s.rqs[s.tasks[t].cpu := RequeueRq(Home(s, t), s.tasks, t, head)])
    case Schedule(c, offer) =>
      s.(rqs := s.rqs[c := Switch(s.rqs[c], s.tasks, offer)])
    case SetPrio(t, prio) =>
      s.(tasks := s.tasks[t := s.tasks[t].(prio := prio)])
    case SetTaskCpu(t, c) =>
      s.(tasks := s.tasks[t := s.tasks[t].(cpu := c)])
    case SetAffinity(t, mask) =>
      System(s.rqs[s.tasks[t].cpu := AffinityRq(Home(s, t), s.tasks, t, |mask|)],
             s.tasks[t := s.tasks[t].(allowed := mask)])
    case SetOnline(c, online) =>
      s.(rqs := s.rqs[c := s.rqs[c].(online := online)])
    case SetThrottled(c, throttled) =>
      s.(rqs := s.rqs[c := s.rqs[c].(throttled := throttled)])
    case Push(c, t, dest) =>
      QueuedIsHere(s, c, t);
      Move(s, t, dest)
    case Pull(c, src, t) =>
      QueuedIsHere(s, src, t);
      Move(s, t, c)
  }

  lemma QueuedIsHere(s: System, c: nat, t: Tid)
    requires Ok(s) && c < |s.rqs| && Queued(s.rqs[c], s.tasks, t)
    ensures s.tasks[t].cpu == c && s.tasks[t].prio < MAX_RT_PRIO
  {
  }

  /** The five BUG_ONs of `pick_next_pushable_task` (the fourth, `on_rq`, is queuedness). */
  lemma PushedIsHere(s: System, c: nat)
    requires Ok(s) && c < |s.rqs| && s.rqs[c].pushable != []
    ensures var t := s.rqs[c].pushable[0];
            && t in s.tasks && s.tasks[t].cpu == c
            && t != s.rqs[c].curr
            && |s.tasks[t].allowed| > 1
            && Queued(s.rqs[c], s.tasks, t)
            && s.tasks[t].prio < MAX_RT_PRIO
            && forall u | Pushable(s.rqs[c], s.tasks, u) :: s.tasks[t].prio <= s.tasks[u].prio
  {
    var q := s.rqs[c];
    assert RqOk(q, s.tasks, c);
    assert q.pushable[0] in q.pushable;
    QueuedIsHere(s, c, q.pushable[0]);
    forall u | Pushable(q, s.tasks, u) ensures s.tasks[q.pushable[0]].prio <= s.tasks[u].prio {
      assert u in q.pushable;
    }
  }

  lemma OneRqKeeps(s: System, c: nat, q: Rq)
    requires Ok(s) && c < |s.rqs| && RqOk(q, s.tasks, c)
    ensures Ok(s.(rqs := s.rqs[c := q]))
  {
  }

  /** A task that is off the queues changes its entry; every queue stays well formed. */
  lemma TableKeeps(s: System, t: Tid, task: Task)
    requires Ok(s) && t in s.tasks && !OnRq(s, t) && task.cpu < |s.rqs|
    requires t == Home(s, t).curr ==> task.cpu == s.tasks[t].cpu
    ensures Ok(s.(tasks := s.tasks[t := task]))
    ensures forall c: nat | c < |s.rqs| :: !Queued(s.rqs[c], s.tasks[t := task], t)
  {
    forall c: nat | c < |s.rqs|
      ensures RqOk(s.rqs[c], s.tasks[t := task], c) && !Queued(s.rqs[c], s.tasks[t := task], t)
    {
      assert RqOk(s.rqs[c], s.tasks, c);
      if Queued(s.rqs[c], s.tasks, t) {
        QueuedIsHere(s, c, t);
        assert false;
      }
      TaskChangeKeeps(s.rqs[c], s.tasks, c, t, task);
    }
  }

  /** Moving a queued task that is not running: it lands on `dest` at the back of its list,
      nothing else is added or lost, and every queue stays well formed. */
  lemma MoveKeeps(s: System, t: Tid, dest: nat)
    requires Ok(s) && OnRq(s, t) && t != Home(s, t).curr
    requires dest < |s.rqs| && s.tasks[t].cpu != dest
    ensures s.tasks[t].prio < MAX_RT_PRIO
    ensures Ok(Move(s, t, dest)) && |Move(s, t, dest).rqs| == |s.rqs|
    ensures forall u :: OnRq(Move(s, t, dest), u) <==> OnRq(s, u)
    ensures t !in Move(s, t, dest).rqs[s.tasks[t].cpu].pushable
  {
    var tasks' := s.tasks[t := s.tasks[t].(cpu := dest)];
    var from := s.tasks[t].cpu;
    QueuedIsHere(s, from, t);
    var off := s.(rqs := s.rqs[from := DequeueRq(s.rqs[from], s.tasks, t)]);
    assert RqOk(s.rqs[from], s.tasks, from);
    DequeueKeeps(s.rqs[from], s.tasks, from, t);
    PlistDelKeeps(s.rqs[from], s.tasks, t);
    OneRqKeeps(s, from, off.rqs[from]);
    hide DequeueRq, EnqueueRq, RqOk;
    TableKeeps(off, t, tasks'[t]);
    var moved := off.(tasks := tasks');
    EnqueueKeeps(moved.rqs[dest], tasks', dest, t, false);
    OneRqKeeps(moved, dest, EnqueueRq(moved.rqs[dest], tasks', t, false));
    var r := Move(s, t, dest);
    assert r == System(moved.rqs[dest := EnqueueRq(moved.rqs[dest], tasks', t, false)], tasks');
    forall u ensures OnRq(r, u) <==> OnRq(s, u) {
      if u in s.tasks && u != t {
        var c := s.tasks[u].cpu;
        assert Queued(moved.rqs[c], tasks', u) == Queued(s.rqs[c], s.tasks, u) by {
          assert Queued(off.rqs[c], tasks', u) == Queued(off.rqs[c], s.tasks, u);
        }
      }
    }
  }

  lemma NextKeeps(s: System, step: Step)
    requires Ok(s) && Enabled(s, step)
    ensures Ok(Next(s, step)) && |Next(s, step).rqs| == |s.rqs|
  {
    hide QueueOk, Queued, Sorted, Unique, EnqueueRq, DequeueRq, RequeueRq, Switch, AffinityRq, Move;
    match step
    case Enqueue(t, head) =>
      EnqueueKeeps(Home(s, t), s.tasks, s.tasks[t].cpu, t, head);
      OneRqKeeps(s, s.tasks[t].cpu, EnqueueRq(Home(s, t), s.tasks, t, head));
    case Dequeue(t) =>
      DequeueKeeps(Home(s, t), s.tasks, s.tasks[t].cpu, t);
      OneRqKeeps(s, s.tasks[t].cpu, DequeueRq(Home(s, t), s.tasks, t));
    case Requeue(t, head) =>
      RequeueKeeps(Home(s, t), s.tasks, s.tasks[t].cpu, t, head);
      OneRqKeeps(s, s.tasks[t].cpu, RequeueRq(Home(s, t), s.tasks, t, head));
    case Schedule(c, offer) =>
      SwitchKeeps(s.rqs[c], s.tasks, c, offer);
      OneRqKeeps(s, c, Switch(s.rqs[c], s.tasks, offer));
    case SetPrio(t, prio) =>
      TableKeeps(s, t, s.tasks[t].(prio := prio));
    case SetTaskCpu(t, c) =>
      TableKeeps(s, t, s.tasks[t].(cpu := c));
    case SetAffinity(t, mask) =>
      AffinityStepKeeps(s, t, mask);
    case SetOnline(c, online) =>
      FlagsKeep(s.rqs[c], s.rqs[c].(online := online), s.tasks, c);
    case SetThrottled(c, throttled) =>
      FlagsKeep(s.rqs[c], s.rqs[c].(throttled := throttled), s.tasks, c);
    case Push(c, t, dest) =>
      HeldIsQueued(s, c, t);
      MoveKeeps(s, t, dest);
    case Pull(c, src, t) =>
      PulledIsQueued(s, src, t);
      MoveKeeps(s, t, c);
  }

  /** A move is three steps. */
  lemma MoveIsSteps(s: System, t: Tid, dest: nat)
    requires Ok(s) && OnRq(s, t) && t != Home(s, t).curr
    requires s.tasks[t].prio < MAX_RT_PRIO && dest < |s.rqs| && s.tasks[t].cpu != dest
    ensures var off := Next(s, Dequeue(t));
      && Ok(off) && off.tasks == s.tasks && Enabled(off, SetTaskCpu(t, dest))
      && var there := Next(off, SetTaskCpu(t, dest));
         && Ok(there) && there.tasks == s.tasks[t := s.tasks[t].(cpu := dest)]
         && Next(there, Enqueue(t, false)) == Move(s, t, dest)
  {
    var from := s.tasks[t].cpu;
    assert RqOk(s.rqs[from], s.tasks, from);
    DequeueKeeps(s.rqs[from], s.tasks, from, t);
    NextKeeps(s, Dequeue(t));
    NextKeeps(Next(s, Dequeue(t)), SetTaskCpu(t, dest));
  }

  lemma PulledIsQueued(s: System, src: nat, t: Tid)
    requires Ok(s) && src < |s.rqs| && Pushable(s.rqs[src], s.tasks, t)
    ensures OnRq(s, t) && t != Home(s, t).curr && s.tasks[t].cpu == src
  {
  }

  lemma HeldIsQueued(s: System, c: nat, t: Tid)
    requires Ok(s) && Held(s, c, t)
    ensures OnRq(s, t) && t != Home(s, t).curr && s.tasks[t].cpu == c && s.tasks[t].prio < MAX_RT_PRIO
  {
    QueuedIsHere(s, c, t);
  }

  lemma FlagsKeep(q: Rq, q': Rq, tasks: Tasks, c: nat)
    requires RqOk(q, tasks, c) && q' == q.(online := q'.online, throttled := q'.throttled)
    ensures RqOk(q', tasks, c)
  {
  }

  lemma AffinityStepKeeps(s: System, t: Tid, mask: set<nat>)
    requires Ok(s) && t in s.tasks
    ensures Ok(Next(s, SetAffinity(t, mask)))
  {
    var home := s.tasks[t].cpu;
    var tasks' := s.tasks[t := s.tasks[t].(allowed := mask)];
    var s' := Next(s, SetAffinity(t, mask));
    assert RqOk(s.rqs[home], s.tasks, home);
    AffinityKeeps(s.rqs[home], s.tasks, home, t, mask);
    forall c: nat | c < |s.rqs| && c != home ensures RqOk(s.rqs[c], tasks', c) {
      assert RqOk(s.rqs[c], s.tasks, c);
      if Queued(s.rqs[c], s.tasks, t) {
        QueuedIsHere(s, c, t);
        assert false;
      }
      TaskChangeKeeps(s.rqs[c], s.tasks, c, t, tasks'[t]);
    }
  }

  // ---------------------------------------------------------------------------
  // whole runs
  // ---------------------------------------------------------------------------

  ghost predicate IsRun(states: seq<System>, steps: seq<Step>) {
    && |states| == |steps| + 1
    && Ok(states[0])
    && forall k: nat | k < |steps| && Ok(states[k]) ::
         Enabled(states[k], steps[k]) && states[k + 1] == Next(states[k], steps[k])
  }

  /** In every state of every run the queues are well formed: `RqOk` says that each pushable
      list is exactly the queued, not running tasks with more than one CPU, in order. */
  lemma {:induction false} RunOk(states: seq<System>, steps: seq<Step>, n: nat)
    requires IsRun(states, steps) && n < |states|
    ensures Ok(states[n]) && |states[n].rqs| == |states[0].rqs|
  {
    if n > 0 {
      RunOk(states, steps, n - 1);
      NextKeeps(states[n - 1], steps[n - 1]);
    }
  }

  /** A freshly booted machine. */
  lemma BootOk(cpus: nat, tasks: Tasks, idle: seq<Tid>)
    requires |idle| == cpus && forall t <- tasks :: tasks[t].cpu < cpus
    requires forall c: nat | c < cpus :: idle[c] in tasks && tasks[idle[c]].cpu == c
    ensures Ok(System(seq(cpus, c requires 0 <= c < cpus => Rq(seq(MAX_RT_PRIO, _ => []), [], idle[c], false, false)), tasks))
  {
  }

  /** What a schedule step picks: nothing queued is more urgent than the task it switches
      to, which is the one that has waited longest at its level. */
  lemma PickIsBest(s: System, c: nat, offer: Offer, t: Tid)
    requires Ok(s) && Enabled(s, Schedule(c, offer))
    requires !offer.stop && !s.rqs[c].throttled && Queued(s.rqs[c], s.tasks, t)
    ensures var q := s.rqs[c];
            var next := Next(s, Schedule(c, offer)).rqs[c].curr;
            && Queued(q, s.tasks, next)
            && s.tasks[next].prio <= s.tasks[t].prio
            && (s.tasks[next].prio == s.tasks[t].prio ==> next == q.queues[s.tasks[t].prio][0])
  {
  }

  // ---------------------------------------------------------------------------
  // balancing settles
  // ---------------------------------------------------------------------------

  function SumBest(rqs: seq<Rq>): nat {
    if rqs == [] then 0 else Best(rqs[0]) + SumBest(rqs[1..])
  }

  lemma {:induction false} SumBestUpdate(rqs: seq<Rq>, c: nat, q: Rq)
    requires c < |rqs|
    ensures SumBest(rqs[c := q]) == SumBest(rqs) - Best(rqs[c]) + Best(q)
  {
    if c > 0 {
      SumBestUpdate(rqs[1..], c - 1, q);
      assert rqs[c := q][1..] == rqs[1..][c - 1 := q];
    } else {
      assert rqs[0 := q][1..] == rqs[1..];
    }
  }

  /** `Best` is the least occupied level. */
  lemma BestIs(q: Rq, p: nat)
    requires p <= |q.queues| && (forall j: nat | j < p :: q.queues[j] == [])
    requires p < |q.queues| ==> q.queues[p] != []
    ensures Best(q) == p
  {
  }

  predicate IsMove(step: Step) {
    step.Push? || step.Pull?
  }

  lemma DequeueBest(q: Rq, tasks: Tasks, cpu: nat, t: Tid, stays: Tid)
    requires QueuesOk(q, tasks, cpu) && Queued(q, tasks, t) && Queued(q, tasks, stays)
    requires t != stays && tasks[stays].prio <= tasks[t].prio
    ensures Best(DequeueRq(q, tasks, t)) == Best(q)
  {
    UnlinkKeeps(q, tasks, cpu, t);
    var q' := DequeueRq(q, tasks, t);
    var b := Best(q);
    BestIsMostUrgent(q, tasks, cpu, stays);
    assert Queued(q', tasks, stays) by {
      assert Queued(Unlink(q, tasks, t), tasks, stays);
    }
    assert q'.queues[b] != [] by {
      if b == tasks[stays].prio {
        assert stays in q'.queues[b];
      } else {
        assert q'.queues[b] == q.queues[b];
      }
    }
    BestIs(q', b);
  }

  lemma EnqueueBest(q: Rq, tasks: Tasks, cpu: nat, t: Tid)
    requires QueuesOk(q, tasks, cpu) && PlistOk(q.pushable, tasks) && t in tasks && tasks[t].prio < Best(q)
    ensures Best(EnqueueRq(q, tasks, t, false)) == tasks[t].prio
  {
    var q' := EnqueueRq(q, tasks, t, false);
    assert q'.queues[tasks[t].prio] == [t];
    BestIs(q', tasks[t].prio);
  }

  /** One balancing move: the destination's best priority becomes the moved task's, which
      is better than before; a source that runs a queued task at least as urgent keeps its
      own. */
  lemma MoveLowers(s: System, t: Tid, dest: nat)
    requires Ok(s) && OnRq(s, t) && t != Home(s, t).curr && dest < |s.rqs| && s.tasks[t].cpu != dest
    requires s.tasks[t].prio < Best(s.rqs[dest])
    ensures s.tasks[t].prio < MAX_RT_PRIO && Ok(Move(s, t, dest))
    ensures Best(Move(s, t, dest).rqs[dest]) == s.tasks[t].prio
    ensures SumBest(Move(s, t, dest).rqs) < SumBest(s.rqs) + MAX_RT_PRIO
    ensures RunsOver(s, s.tasks[t].cpu, t) ==>
      && Best(Move(s, t, dest).rqs[s.tasks[t].cpu]) == Best(Home(s, t))
      && SumBest(Move(s, t, dest).rqs) < SumBest(s.rqs)
  {
    MoveKeeps(s, t, dest);
    var s' := Move(s, t, dest);
    var from := s.tasks[t].cpu;
    var q := s.rqs[from];
    assert RqOk(q, s.tasks, from) && RqOk(s.rqs[dest], s.tasks, dest);
    if RunsOver(s, from, t) {
      DequeueBest(q, s.tasks, from, t, q.curr);
    }
    TableUnchanged(s, t, dest);
    EnqueueBest(s.rqs[dest], s'.tasks, dest, t);
    SumBestUpdate(s.rqs, from, s'.rqs[from]);
    SumBestUpdate(s.rqs[from := s'.rqs[from]], dest, s'.rqs[dest]);
    assert s'.rqs == s.rqs[from := s'.rqs[from]][dest := s'.rqs[dest]];
    BestInRange(s'.rqs[from]);
    assert |s'.rqs[from].queues| == MAX_RT_PRIO;
  }

  lemma BestInRange(q: Rq)
    ensures Best(q) <= |q.queues|
  {
  }

  lemma TableUnchanged(s: System, t: Tid, dest: nat)
    requires Ok(s) && OnRq(s, t) && dest < |s.rqs| && s.tasks[t].cpu != dest
    ensures var tasks' := s.tasks[t := s.tasks[t].(cpu := dest)];
            QueuesOk(s.rqs[dest], tasks', dest) && PlistOk(s.rqs[dest].pushable, tasks')
  {
    assert RqOk(s.rqs[dest], s.tasks, dest);
    if Queued(s.rqs[dest], s.tasks, t) {
      QueuedIsHere(s, dest, t);
      assert false;
    }
    TaskChangeKeeps(s.rqs[dest], s.tasks, dest, t, s.tasks[t].(cpu := dest));
  }

  predicate RunsOver(s: System, cpu: nat, t: Tid)
    requires Ok(s) && cpu < |s.rqs| && t in s.tasks
  {
    OnRq(s, s.rqs[cpu].curr) && s.tasks[s.rqs[cpu].curr].prio <= s.tasks[t].prio
  }

  /** A move of a task from under one that is queued on the same CPU and runs, not a stop task
      or one that is about to sleep, and that is at least as urgent. */
  predicate SteadyMove(s: System, step: Step)
    requires Ok(s) && Enabled(s, step)
  {
    match step
    case Push(c, t, _) => RunsOver(s, c, t)
    case Pull(_, src, t) => RunsOver(s, src, t)
    case _ => false
  }

  /** A step that can leave a CPU with a worse best priority. */
  predicate Loosens(s: System, step: Step)
    requires Ok(s) && Enabled(s, step)
  {
    step.Dequeue? || (IsMove(step) && !SteadyMove(s, step))
  }

  /** The steady moves and the loosening steps among the first `n`. */
  ghost function Tally(states: seq<System>, steps: seq<Step>, n: nat): (nat, nat)
    requires n <= |steps| && |states| == |steps| + 1
  {
    if n == 0 then (0, 0)
    else
      var (moves, loose) := Tally(states, steps, n - 1);
      var s, step := states[n - 1], steps[n - 1];
      if !Ok(s) || !Enabled(s, step) then (moves, loose)
      else (moves + (if SteadyMove(s, step) then 1 else 0), loose + (if Loosens(s, step) then 1 else 0))
  }

  /** No ping-pong: over any run, whatever tasks wake, sleep, are scheduled or change
      meanwhile, the CPUs make at most `SumBest` steady moves and a hundred more for every
      task that was dequeued or moved otherwise. */
  lemma {:induction false} BalancingSettles(states: seq<System>, steps: seq<Step>, n: nat)
    requires IsRun(states, steps) && n < |states|
    ensures Ok(states[n])
    ensures var (moves, loose) := Tally(states, steps, n);
      moves + SumBest(states[n].rqs) <= SumBest(states[0].rqs) + MAX_RT_PRIO * loose
  {
    if n > 0 {
      BalancingSettles(states, steps, n - 1);
      StepLowers(states[n - 1], steps[n - 1]);
      hide Ok, Enabled, Next, SumBest, SteadyMove, Loosens;
    }
  }

  lemma StepLowers(s: System, step: Step)
    requires Ok(s) && Enabled(s, step)
    ensures Ok(Next(s, step))
    ensures SumBest(Next(s, step).rqs) + (if SteadyMove(s, step) then 1 else 0)
            <= SumBest(s.rqs) + (if Loosens(s, step) then MAX_RT_PRIO else 0)
  {
    NextKeeps(s, step);
    if IsMove(step) {
      MoveStepLowers(s, step);
    } else {
      OtherStepLowers(s, step);
    }
    hide Ok, Next, Enabled, SumBest, RunsOver;
  }

  lemma MoveStepLowers(s: System, step: Step)
    requires Ok(s) && Enabled(s, step) && IsMove(step)
    ensures SumBest(Next(s, step).rqs) + (if SteadyMove(s, step) then 1 else 0)
            <= SumBest(s.rqs) + (if Loosens(s, step) then MAX_RT_PRIO else 0)
  {
    hide Move, SumBest, QueuesOk, PushOk, Best;
    match step
    case Push(c, t, dest) =>
      HeldIsQueued(s, c, t);
      MoveLowers(s, t, dest);
    case Pull(c, src, t) =>
      PulledIsQueued(s, src, t);
      MoveLowers(s, t, c);
  }

  lemma OtherStepLowers(s: System, step: Step)
    requires Ok(s) && Enabled(s, step) && !IsMove(step)
    ensures SumBest(Next(s, step).rqs) <= SumBest(s.rqs) + (if step.Dequeue? then MAX_RT_PRIO else 0)
  {
    hide Move, SumBest, QueuesOk, PushOk, EnqueueRq, DequeueRq, RequeueRq, Switch, AffinityRq;
    match step
    case Enqueue(t, head) =>
      AllRqOk(s, s.tasks[t].cpu);
      OccupiedStays(Home(s, t), s.tasks, s.tasks[t].cpu, t, head);
      SumBestUpdate(s.rqs, s.tasks[t].cpu, EnqueueRq(Home(s, t), s.tasks, t, head));
    case Dequeue(t) =>
      AllRqOk(s, s.tasks[t].cpu);
      DequeueLength(Home(s, t), s.tasks, t);
      SumBestUpdate(s.rqs, s.tasks[t].cpu, DequeueRq(Home(s, t), s.tasks, t));
    case Requeue(t, head) =>
      AllRqOk(s, s.tasks[t].cpu);
      OccupiedStays(Home(s, t), s.tasks, s.tasks[t].cpu, t, head);
      SumBestUpdate(s.rqs, s.tasks[t].cpu, RequeueRq(Home(s, t), s.tasks, t, head));
    case Schedule(c, offer) =>
      AllRqOk(s, c);
      SwitchKeeps(s.rqs[c], s.tasks, c, offer);
      SumBestUpdate(s.rqs, c, Switch(s.rqs[c], s.tasks, offer));
    case SetAffinity(t, mask) =>
      AllRqOk(s, s.tasks[t].cpu);
      AffinityKeeps(Home(s, t), s.tasks, s.tasks[t].cpu, t, mask);
      SumBestUpdate(s.rqs, s.tasks[t].cpu, AffinityRq(Home(s, t), s.tasks, t, |mask|));
    case SetOnline(c, online) => SumBestUpdate(s.rqs, c, s.rqs[c].(online := online));
    case SetThrottled(c, throttled) => SumBestUpdate(s.rqs, c, s.rqs[c].(throttled := throttled));
    case SetPrio(_, _) =>
    case SetTaskCpu(_, _) =>
  }

  lemma AllRqOk(s: System, c: nat)
    requires Ok(s) && c < |s.rqs|
    ensures RqOk(s.rqs[c], s.tasks, c) && |s.rqs[c].queues| == MAX_RT_PRIO && PlistOk(s.rqs[c].pushable, s.tasks)
  {
  }

  lemma DequeueLength(q: Rq, tasks: Tasks, t: Tid)
    requires |q.queues| == MAX_RT_PRIO && t in tasks && tasks[t].prio < MAX_RT_PRIO
    ensures Best(DequeueRq(q, tasks, t)) <= MAX_RT_PRIO
  {
  }

  /** Putting a task on, or moving it within, its level empties no level. */
  lemma OccupiedStays(q: Rq, tasks: Tasks, cpu: nat, t: Tid, head: bool)
    requires RqOk(q, tasks, cpu) && t in tasks
    ensures tasks[t].prio < MAX_RT_PRIO ==> Best(EnqueueRq(q, tasks, t, head)) <= Best(q)
    ensures Best(RequeueRq(q, tasks, t, head)) <= Best(q)
  {
    var b := Best(q);
    if tasks[t].prio < MAX_RT_PRIO {
      var q' := EnqueueRq(q, tasks, t, head);
      assert b < MAX_RT_PRIO ==> q'.queues[b] != [];
    }
    var r := RequeueRq(q, tasks, t, head);
    assert b < MAX_RT_PRIO ==> r.queues[b] != [];
  }

  /** The extra hundred is needed for a bound on these steps: under stop tasks a push and a
      pull back restore the state.  Whether the scheduler comes to make these two steps in
      turn depends on its triggers, which are not steps here. */
  lemma PingPong(s: System, c: nat, t: Tid, dest: nat)
    requires Ok(s) && MayPush(s, c, t, dest)
    requires s.rqs[c].pushable != [] && s.rqs[c].pushable[0] == t
    requires c in s.tasks[t].allowed && s.tasks[t].prio < |s.rqs[c].queues| && s.rqs[c].queues[s.tasks[t].prio] == [t]
    requires s.tasks[t].prio <= Best(s.rqs[c]) && s.tasks[s.rqs[dest].curr].prio <= s.tasks[t].prio
    ensures var s1 := Next(s, Push(c, t, dest));
      && Ok(s1) && MayPull(s1, c, dest, t) && Next(s1, Pull(c, dest, t)) == s
  {
    hide Best, DequeueRq, EnqueueRq, RqOk;
    PushedIsHere(s, c);
    PushedMayReturn(s, c, dest, t);
    MoveBack(s, t, dest);
  }

  lemma PushedMayReturn(s: System, c: nat, dest: nat, t: Tid)
    requires Ok(s) && MayPush(s, c, t, dest) && t in s.tasks && s.tasks[t].cpu == c
    requires c in s.tasks[t].allowed && s.tasks[t].prio < |s.rqs[c].queues| && s.rqs[c].queues[s.tasks[t].prio] == [t]
    requires s.tasks[t].prio <= Best(s.rqs[c]) && s.tasks[s.rqs[dest].curr].prio <= s.tasks[t].prio
    requires OnRq(s, t) && t != s.rqs[c].curr && Migratory(s.tasks, t)
    ensures s.tasks[t].prio < MAX_RT_PRIO && Ok(Move(s, t, dest)) && MayPull(Move(s, t, dest), c, dest, t)
  {
    hide Move, Best, DequeueRq, EnqueueRq, PlistOk;
    MoveKeeps(s, t, dest);
    MoveIs(s, t, dest);
    NotOnOther(s, t, dest);
    SteadyOff(s, t);
    assert OnRq(Move(s, t, dest), t);
    hide Ok;
  }

  lemma SteadyOff(s: System, t: Tid)
    requires Ok(s) && t in s.tasks && s.tasks[t].prio < |Home(s, t).queues|
    requires Home(s, t).queues[s.tasks[t].prio] == [t] && s.tasks[t].prio <= Best(Home(s, t))
    ensures s.tasks[t].prio < Best(DequeueRq(Home(s, t), s.tasks, t))
  {
    AllRqOk(s, s.tasks[t].cpu);
    OffBest(Home(s, t), s.tasks, t);
  }

  /** What a move is, queue by queue. */
  lemma MoveIs(s: System, t: Tid, dest: nat)
    requires Ok(s) && OnRq(s, t) && dest < |s.rqs| && s.tasks[t].cpu != dest
    ensures s.tasks[t].prio < MAX_RT_PRIO
    ensures var from, tasks' := s.tasks[t].cpu, s.tasks[t := s.tasks[t].(cpu := dest)];
      var s' := Move(s, t, dest);
      && s.tasks[t].prio < |s.rqs[from].queues| && s.tasks[t].prio < |s.rqs[dest].queues|
      && PlistOk(s.rqs[dest].pushable, tasks')
      && s'.tasks == tasks' && |s'.rqs| == |s.rqs|
      && s'.rqs[from] == DequeueRq(s.rqs[from], s.tasks, t)
      && s'.rqs[dest] == EnqueueRq(s.rqs[dest], tasks', t, false)
      && s'.rqs[dest].curr == s.rqs[dest].curr && s'.rqs[from].curr == s.rqs[from].curr
      && forall k: nat | k < |s.rqs| && k != from && k != dest :: s'.rqs[k] == s.rqs[k]
  {
    QueuedIsHere(s, s.tasks[t].cpu, t);
    AllRqOk(s, s.tasks[t].cpu);
    AllRqOk(s, dest);
    TableUnchanged(s, t, dest);
  }

  /** Moving such a task there and back. */
  lemma MoveBack(s: System, t: Tid, dest: nat)
    requires Ok(s) && OnRq(s, t) && t != Home(s, t).curr && dest < |s.rqs| && s.tasks[t].cpu != dest
    requires s.tasks[t].prio < Best(s.rqs[dest])
    requires Home(s, t).pushable != [] && Home(s, t).pushable[0] == t
    requires s.tasks[t].prio < |Home(s, t).queues| && Home(s, t).queues[s.tasks[t].prio] == [t]
    ensures s.tasks[t].prio < MAX_RT_PRIO && Ok(Move(s, t, dest))
    ensures Move(Move(s, t, dest), t, s.tasks[t].cpu) == s
  {
    var c := s.tasks[t].cpu;
    assert c < |s.rqs|;
    hide Ok, Queued, Move, Best, DequeueRq, EnqueueRq, PlistOk;
    MoveKeeps(s, t, dest);
    var s1 := Move(s, t, dest);
    MoveIs(s, t, dest);
    ThereAndBack(s, t, dest);
    assert OnRq(s1, t);
    MoveIs(s1, t, c);
    SameAgain(s, s1, Move(s1, t, c), t, c, dest);
  }

  lemma SameAgain(s: System, s1: System, s2: System, t: Tid, c: nat, dest: nat)
    requires |s.rqs| == |s1.rqs| == |s2.rqs| && c < |s.rqs| && dest < |s.rqs| && t in s.tasks && s.tasks[t].cpu == c
    requires s1.tasks == s.tasks[t := s.tasks[t].(cpu := dest)] && s2.tasks == s1.tasks[t := s1.tasks[t].(cpu := c)]
    requires s2.rqs[c] == s.rqs[c] && s2.rqs[dest] == s.rqs[dest]
    requires forall k: nat | k < |s.rqs| && k != c && k != dest :: s1.rqs[k] == s.rqs[k]
    requires forall k: nat | k < |s.rqs| && k != c && k != dest :: s2.rqs[k] == s1.rqs[k]
    ensures s2 == s
  {
    assert s2.tasks == s.tasks && s2.rqs == s.rqs;
  }

  lemma ThereAndBack(s: System, t: Tid, dest: nat)
    requires Ok(s) && OnRq(s, t) && dest < |s.rqs| && s.tasks[t].cpu != dest
    requires s.tasks[t].prio < Best(s.rqs[dest])
    requires Home(s, t).pushable != [] && Home(s, t).pushable[0] == t
    requires s.tasks[t].prio < |Home(s, t).queues| && Home(s, t).queues[s.tasks[t].prio] == [t]
    ensures var q, d, tasks' := Home(s, t), s.rqs[dest], s.tasks[t := s.tasks[t].(cpu := dest)];
      && s.tasks[t].prio < MAX_RT_PRIO
      && var off := DequeueRq(q, s.tasks, t);
      && |off.queues| == MAX_RT_PRIO && PlistOk(off.pushable, s.tasks) && EnqueueRq(off, s.tasks, t, false) == q
      && DequeueRq(q, tasks', t) == off
      && |d.queues| == MAX_RT_PRIO && PlistOk(d.pushable, tasks')
      && var on := EnqueueRq(d, tasks', t, false);
      && |on.queues| == MAX_RT_PRIO && DequeueRq(on, tasks', t) == d
  {
    AllRqOk(s, s.tasks[t].cpu);
    AllRqOk(s, dest);
    TableUnchanged(s, t, dest);
    NotOnOther(s, t, dest);
    BackOn(Home(s, t), s.tasks, t);
    OnAndOff(s.rqs[dest], s.tasks[t := s.tasks[t].(cpu := dest)], dest, t);
    hide QueuesOk, PlistOk, Remove, Insert, PushOk;
  }

  /** A queued task is on no other CPU's lists and runs on no other CPU. */
  lemma NotOnOther(s: System, t: Tid, dest: nat)
    requires Ok(s) && OnRq(s, t) && dest < |s.rqs| && s.tasks[t].cpu != dest
    ensures t !in s.rqs[dest].pushable && t != s.rqs[dest].curr
  {
    assert RqOk(s.rqs[dest], s.tasks, dest);
    if t in s.rqs[dest].pushable {
      QueuedIsHere(s, dest, t);
      assert false;
    }
  }

  lemma OffBest(q: Rq, tasks: Tasks, t: Tid)
    requires |q.queues| == MAX_RT_PRIO && t in tasks && tasks[t].prio < MAX_RT_PRIO
    requires q.queues[tasks[t].prio] == [t] && tasks[t].prio <= Best(q)
    ensures tasks[t].prio < Best(DequeueRq(q, tasks, t))
  {
  }

  /** Taking off a task that is alone at its level and heads the pushable list, and putting it
      on again. */
  lemma BackOn(q: Rq, tasks: Tasks, t: Tid)
    requires |q.queues| == MAX_RT_PRIO && t in tasks && tasks[t].prio < MAX_RT_PRIO
    requires PushOk(q, tasks) && q.pushable != [] && q.pushable[0] == t
    requires q.queues[tasks[t].prio] == [t]
    ensures var off := DequeueRq(q, tasks, t);
      PlistOk(off.pushable, tasks) && EnqueueRq(off, tasks, t, false) == q
  {
    BackOnPushable(q, tasks, t);
    BackOnLists(q, tasks, t);
    hide Remove, Insert, PlistOk, PushOk;
  }

  lemma BackOnPushable(q: Rq, tasks: Tasks, t: Tid)
    requires PushOk(q, tasks) && q.pushable != [] && q.pushable[0] == t && tasks[t].prio < |q.queues|
    requires q.queues[tasks[t].prio] == [t]
    ensures var rest := Remove(q.pushable, t);
      && PlistOk(rest, tasks) && t in tasks && t != q.curr && Migratory(tasks, t)
      && Remove(rest, t) == rest && Insert(rest, tasks, t) == q.pushable
  {
    assert t in q.pushable;
    RemoveSorted(q.pushable, tasks, t);
    RemoveKeeps(q.pushable, t);
    RemoveKeeps(q.pushable[1..], t);
    if |q.pushable| > 1 {
      var u := q.pushable[1];
      assert u in q.pushable;
      assert Queued(q, tasks, u);
    }
  }

  lemma BackOnLists(q: Rq, tasks: Tasks, t: Tid)
    requires t in tasks && tasks[t].prio < |q.queues| && q.queues[tasks[t].prio] == [t]
    ensures var off := Unlink(q, tasks, t);
      Unlink(off, tasks, t) == off && Link(off, tasks, t, false) == q
  {
    var off := Unlink(q, tasks, t);
    assert off.queues[tasks[t].prio] == [];
    assert off.queues[tasks[t].prio := []] == off.queues;
    assert off.queues[tasks[t].prio := [t]] == q.queues;
    assert AddTo([], t, false) == [t];
  }

  /** Putting a task on and taking it off again. */
  lemma OnAndOff(q: Rq, tasks: Tasks, cpu: nat, t: Tid)
    requires QueuesOk(q, tasks, cpu) && PlistOk(q.pushable, tasks) && t in tasks && tasks[t].prio < Best(q)
    requires t !in q.pushable
    ensures DequeueRq(EnqueueRq(q, tasks, t, false), tasks, t) == q
  {
    RemoveKeeps(q.pushable, t);
    InsertRemove(q.pushable, tasks, t);
    OnAndOffLists(q, tasks, t);
    hide Remove, Insert, PlistOk, QueuesOk, Unlink, Link;
    UnlinkOnly(EnqueueRq(q, tasks, t, false), Link(q, tasks, t, false), tasks, t);
  }

  lemma UnlinkOnly(q: Rq, q': Rq, tasks: Tasks, t: Tid)
    requires q.queues == q'.queues && t in tasks && tasks[t].prio < |q.queues|
    ensures Unlink(q, tasks, t) == q.(queues := Unlink(q', tasks, t).queues)
  {
  }

  lemma OnAndOffLists(q: Rq, tasks: Tasks, t: Tid)
    requires t in tasks && tasks[t].prio < Best(q)
    ensures Unlink(q, tasks, t) == q && Unlink(Link(q, tasks, t, false), tasks, t) == q
    ensures Link(q, tasks, t, false) == q.(queues := Link(q, tasks, t, false).queues)
    ensures |Link(q, tasks, t, false).queues| == |q.queues|
  {
    var i := tasks[t].prio;
    assert q.queues[i] == [];
    assert q.queues[i := []] == q.queues;
    assert q.queues[i := [t]][i := []] == q.queues;
    assert AddTo([], t, false) == [t];
  }

  lemma {:induction false} InsertRemove(s: seq<Tid>, tasks: Tasks, t: Tid)
    requires t in tasks && (forall u <- s :: u in tasks) && t !in s
    ensures Remove(Insert(s, tasks, t), t) == s
  {
    if s != [] {
      InsertRemove(s[1..], tasks, t);
    }
  }

  lemma {:induction false} SumBestBound(s: System)
    requires Ok(s)
    ensures SumBest(s.rqs) <= MAX_RT_PRIO * |s.rqs|
  {
    SumBestAtMost(s.rqs);
  }

  lemma {:induction false} SumBestAtMost(rqs: seq<Rq>)
    requires forall q <- rqs :: |q.queues| == MAX_RT_PRIO
    ensures SumBest(rqs) <= MAX_RT_PRIO * |rqs|
  {
    if rqs != [] {
      SumBestAtMost(rqs[1..]);
    }
  }

  /** Any sequence of pushes and pulls keeps the queued tasks as a whole, what every CPU is
      running, and everything about a task but its CPU, which its mask allows if it moved. */
  lemma {:induction false} BalancingConserves(states: seq<System>, steps: seq<Step>, n: nat, u: Tid)
    requires IsRun(states, steps) && n < |states|
    requires forall k: nat | k < |steps| :: IsMove(steps[k])
    ensures Ok(states[n]) && (OnRq(states[n], u) <==> OnRq(states[0], u))
    ensures u in states[n].tasks <==> u in states[0].tasks
    ensures u in states[0].tasks ==>
      var now, was := states[n].tasks[u], states[0].tasks[u];
      now == was.(cpu := now.cpu) && (now.cpu == was.cpu || now.cpu in was.allowed)
  {
    if n > 0 {
      BalancingConserves(states, steps, n - 1, u);
      StepConserves(states[n - 1], steps[n - 1], u);
    }
  }

  lemma StepConserves(s: System, step: Step, u: Tid)
    requires Ok(s) && Enabled(s, step) && IsMove(step)
    ensures Ok(Next(s, step)) && (OnRq(Next(s, step), u) <==> OnRq(s, u))
    ensures u in Next(s, step).tasks <==> u in s.tasks
    ensures u in s.tasks ==>
      var now, was := Next(s, step).tasks[u], s.tasks[u];
      now == was.(cpu := now.cpu) && (now.cpu == was.cpu || now.cpu in was.allowed)
  {
    hide Queued, RqOk, DequeueRq, EnqueueRq;
    match step
    case Push(c, t, dest) =>
      HeldIsQueued(s, c, t);
      MoveKeeps(s, t, dest);
    case Pull(c, src, t) =>
      PulledIsQueued(s, src, t);
      MoveKeeps(s, t, c);
  }
}
