/** Scheduling classes of tasks and the queues they stand on: policy changes, priority
    inheritance, renice, fork, wake-up and sleep, and the pick across the classes.

    One run queue.  Membership follows the class, not the policy: a task of policy 6 is in
    the fair class after a fork or after losing a boost. */
module ClassSwitch {
  import opened TaskLists
  import RtModel

  const MAX_RT_PRIO: nat := RtModel.MAX_RT_PRIO
  const MAX_PRIO: int := 140
  const WRR_MAX_PRIO: int := 500
  const DEFAULT_PRIO: int := 120

  const SCHED_NORMAL: int := 0
  const SCHED_FIFO: int := 1
  const SCHED_RR: int := 2
  const SCHED_BATCH: int := 3
  const SCHED_IDLE: int := 5
  const SCHED_WRR: int := 6

  datatype Class = RtClass | WrrClass | FairClass

  datatype Task = Task(policy: int, rtPriority: int, staticPrio: int, normalPrio: int, prio: int,
                       cls: Class, onRq: bool, resetOnFork: bool)

  type Tasks = map<Tid, Task>

  /** The class queues with their counters, and `rq->nr_running`.  The order that the fair
      class keeps is not modelled: its queue is a set. */
  datatype State = State(rt: seq<seq<Tid>>, wrr: seq<Tid>, fair: set<Tid>,
                         rtNr: nat, wrrNr: nat, fairNr: nat, nrRunning: nat, rtThrottled: bool, tasks: Tasks)

  datatype Result = Success | InvalidArgument | NotPermitted

  predicate RtPolicy(policy: int) {
    policy == SCHED_FIFO || policy == SCHED_RR
  }

  predicate ValidPolicy(policy: int) {
    RtPolicy(policy) || policy == SCHED_WRR || policy == SCHED_NORMAL || policy == SCHED_BATCH || policy == SCHED_IDLE
  }

  function NormalPrio(task: Task): int {
    if RtPolicy(task.policy) then MAX_RT_PRIO - 1 - task.rtPriority else task.staticPrio
  }

  function Min(a: int, b: int): int {
    if a < b then a else b
  }

  // ---------------------------------------------------------------------------
  // operations
  // ---------------------------------------------------------------------------

  /** `enqueue_task`, which the task's class carries out. */
  function EnqueueTask(s: State, t: Tid, head: bool): State
    requires t in s.tasks
  {
    var s' := s.(nrRunning := s.nrRunning + 1);
    var p := s.tasks[t].prio;
    match s.tasks[t].cls
    case RtClass => if 0 <= p < |s.rt| then s'.(rt := s.rt[p := AddTo(s.rt[p], t, head)], rtNr := s.rtNr + 1) else s
    case WrrClass => s'.(wrr := AddTo(s.wrr, t, head), wrrNr := s.wrrNr + 1)
    case FairClass => s'.(fair := s.fair + {t}, fairNr := s.fairNr + 1)
  }

  function Less(n: nat): nat {
    if n == 0 then 0 else n - 1
  }

  function DequeueTask(s: State, t: Tid): State
    requires t in s.tasks
  {
    var s' := s.(nrRunning := Less(s.nrRunning));
    var p := s.tasks[t].prio;
    match s.tasks[t].cls
    case RtClass => if 0 <= p < |s.rt| then s'.(rt := s.rt[p := Remove(s.rt[p], t)], rtNr := Less(s.rtNr)) else s
    case WrrClass => s'.(wrr := Remove(s.wrr, t), wrrNr := Less(s.wrrNr))
    case FairClass => s'.(fair := s.fair - {t}, fairNr := Less(s.fairNr))
  }

  function Store(s: State, t: Tid, task: Task): State {
    s.(tasks := s.tasks[t := task])
  }

  /** Dequeue if queued, change the entry, enqueue again if it was queued. */
  function Change(s: State, t: Tid, task: Task, head: bool): State
    requires t in s.tasks
  {
    if s.tasks[t].onRq then EnqueueTask(Store(DequeueTask(s, t), t, task), t, head) else Store(s, t, task)
  }

  /** `rt_mutex_setprio`. */
  function Boosted(task: Task, prio: int): Task {
    task.(prio := prio, cls := if prio < MAX_RT_PRIO then RtClass else FairClass)
  }

  function RtMutexSetprio(s: State, t: Tid, prio: int): State
    requires t in s.tasks
  {
    Change(s, t, Boosted(s.tasks[t], prio), s.tasks[t].prio < prio)
  }

  /** `set_user_nice` with the static priority the nice value stands for. */
  function Reniced(task: Task, staticPrio: int): Task {
    if RtPolicy(task.policy) then task.(staticPrio := staticPrio)
    else task.(staticPrio := staticPrio, normalPrio := staticPrio,
               prio := if task.prio < MAX_RT_PRIO then task.prio else staticPrio)
  }

  function SetUserNice(s: State, t: Tid, nice: int): State
    requires t in s.tasks
  {
    var task := s.tasks[t];
    var staticPrio := MAX_RT_PRIO + nice + 20;
    if task.staticPrio == staticPrio || nice < -20 || nice > 19 then s
    else if RtPolicy(task.policy) then Store(s, t, Reniced(task, staticPrio))
    else Change(s, t, Reniced(task, staticPrio), false)
  }

  /** `__setscheduler`; `pi` is the best priority among the waiters on the task's locks. */
  function Rescheduled(task: Task, policy: int, rtPriority: int, reset: bool, pi: int): Task {
    var t0 := task.(policy := policy, rtPriority := rtPriority, resetOnFork := reset);
    var prio := Min(NormalPrio(t0), pi);
    t0.(normalPrio := NormalPrio(t0), prio := prio,
        cls := if policy == SCHED_WRR then WrrClass else if prio < MAX_RT_PRIO then RtClass else FairClass)
  }

  /** What the caller of `__sched_setscheduler` asks for; a negative policy keeps the task's
      own.  `permitted` is the outcome of the capability and security checks. */
  datatype Request = Request(policy: int, reset: bool, rtPriority: int, permitted: bool)

  function Refusal(task: Task, r: Request): Result {
    var policy := if r.policy < 0 then task.policy else r.policy;
    if r.policy >= 0 && !ValidPolicy(r.policy) then InvalidArgument
    else if r.rtPriority < 0 || r.rtPriority > MAX_RT_PRIO - 1 then InvalidArgument
    else if RtPolicy(policy) != (r.rtPriority != 0) && policy != SCHED_WRR then InvalidArgument
    else if !r.permitted then NotPermitted
    else Success
  }

  function SetScheduler(s: State, t: Tid, r: Request, pi: int): State
    requires t in s.tasks
  {
    var task := s.tasks[t];
    var policy := if r.policy < 0 then task.policy else r.policy;
    var reset := if r.policy < 0 then task.resetOnFork else r.reset;
    if Refusal(task, r) != Success then s
    else if policy == task.policy && (!RtPolicy(policy) || r.rtPriority == task.rtPriority) then s
    else Change(s, t, Rescheduled(task, policy, r.rtPriority, reset, pi), false)
  }

  /** `sched_fork`: the child's entry. */
  function Child(parent: Task): Task {
    var c0 := parent.(onRq := false, prio := parent.normalPrio);
    var c1 :=
      if !parent.resetOnFork then c0
      else
        var c := if RtPolicy(c0.policy) then c0.(policy := SCHED_NORMAL, staticPrio := DEFAULT_PRIO, rtPriority := 0)
                 else if c0.staticPrio < DEFAULT_PRIO then c0.(staticPrio := DEFAULT_PRIO)
                 else c0;
        c.(prio := c.staticPrio, normalPrio := c.staticPrio, resetOnFork := false);
    if c1.prio < MAX_RT_PRIO then c1 else c1.(cls := FairClass)
  }

  function Fork(s: State, parent: Tid, child: Tid): State
    requires parent in s.tasks
  {
    Store(s, child, Child(s.tasks[parent]))
  }

  /** `activate_task` and the mark that goes with it. */
  function WakeUp(s: State, t: Tid): State
    requires t in s.tasks
  {
    if s.tasks[t].onRq then s else Store(EnqueueTask(s, t, false), t, s.tasks[t].(onRq := true))
  }

  function Sleep(s: State, t: Tid): State
    requires t in s.tasks
  {
    if s.tasks[t].onRq then Store(DequeueTask(s, t), t, s.tasks[t].(onRq := false)) else s
  }

  /** What the tick of the wrr class does to a priority. */
  function Age(s: State, t: Tid): State
    requires t in s.tasks
  {
    var task := s.tasks[t];
    if task.cls != WrrClass || task.policy != SCHED_WRR then s
    else Store(s, t, task.(prio := Min(task.prio + 1, WRR_MAX_PRIO)))
  }

  // ---------------------------------------------------------------------------
  // picking
  // ---------------------------------------------------------------------------

  datatype Pick = Picked(t: Tid) | Idle

  function RtPick(s: State): Pick {
    if s.rtNr == 0 || s.rtThrottled then Idle
    else
      var i := RtModel.FrontFrom(s.rt, 0);
      if i < |s.rt| then Picked(s.rt[i][0]) else Idle
  }

  function WrrPick(s: State): Pick {
    if s.wrrNr == 0 || s.wrr == [] then Idle else Picked(s.wrr[0])
  }

  /** The fair class picks some queued task whenever it has one. */
  function FairPick(s: State, choose: set<Tid> -> Tid): Pick {
    if s.fairNr == 0 then Idle else Picked(choose(s.fair))
  }

  /** The walk over the classes, from real-time to idle; the stop task is not modelled. */
  function ScanPick(s: State, choose: set<Tid> -> Tid): Pick {
    if RtPick(s).Picked? then RtPick(s)
    else if WrrPick(s).Picked? then WrrPick(s)
    else FairPick(s, choose)
  }

  /** `pick_next_task` with its shortcut. */
  function PickNext(s: State, choose: set<Tid> -> Tid): Pick {
    if s.nrRunning == s.fairNr && FairPick(s, choose).Picked? then FairPick(s, choose) else ScanPick(s, choose)
  }

  // ---------------------------------------------------------------------------
  // the invariant
  // ---------------------------------------------------------------------------

  function InClass(tasks: Tasks, on: set<Tid>, cls: Class): set<Tid> {
    set t | t in on && t in tasks && tasks[t].cls == cls
  }

  predicate AtLevel(tasks: Tasks, on: set<Tid>, t: Tid, i: nat) {
    t in on && t in tasks && tasks[t].cls == RtClass && tasks[t].prio == i
  }

  ghost predicate RtLinked(rt: seq<seq<Tid>>, tasks: Tasks, on: set<Tid>) {
    && |rt| == MAX_RT_PRIO
    && (forall t <- on :: t in tasks && (tasks[t].cls == RtClass ==> 0 <= tasks[t].prio < MAX_RT_PRIO))
    && forall i: nat | i < MAX_RT_PRIO :: Unique(rt[i]) && forall t :: t in rt[i] <==> AtLevel(tasks, on, t, i)
  }

  ghost predicate WrrLinked(wrr: seq<Tid>, tasks: Tasks, on: set<Tid>) {
    Unique(wrr) && forall t :: t in wrr <==> t in InClass(tasks, on, WrrClass)
  }

  predicate Counted(s: State, on: set<Tid>) {
    && s.fair == InClass(s.tasks, on, FairClass)
    && s.rtNr == |InClass(s.tasks, on, RtClass)|
    && s.wrrNr == |InClass(s.tasks, on, WrrClass)|
    && s.fairNr == |InClass(s.tasks, on, FairClass)|
    && s.nrRunning == s.rtNr + s.wrrNr + s.fairNr
  }

  /** Exactly the tasks of `on` are linked, each in the queue of its class, and every counter
      counts its queue. */
  ghost predicate Linked(s: State, on: set<Tid>) {
    RtLinked(s.rt, s.tasks, on) && WrrLinked(s.wrr, s.tasks, on) && Counted(s, on)
  }

  function OnRq(s: State): set<Tid> {
    set t | t in s.tasks && s.tasks[t].onRq
  }

  /** The fields of one task agree. */
  predicate TaskOk(task: Task) {
    && ValidPolicy(task.policy)
    && 0 <= task.rtPriority < MAX_RT_PRIO && MAX_RT_PRIO <= task.staticPrio < MAX_PRIO
    && (RtPolicy(task.policy) ==> task.rtPriority >= 1 && task.cls == RtClass)
    && task.normalPrio == NormalPrio(task)
    && (task.cls == RtClass ==> 0 <= task.prio < MAX_RT_PRIO)
    && (task.cls == FairClass ==> MAX_RT_PRIO <= task.prio)
    && (task.cls == WrrClass ==> task.policy == SCHED_WRR && 0 <= task.prio)
  }

  ghost predicate Inv(s: State) {
    Linked(s, OnRq(s)) && forall t <- s.tasks :: TaskOk(s.tasks[t])
  }

  lemma InClassLess(tasks: Tasks, on: set<Tid>, t: Tid, cls: Class)
    requires t in on && t in tasks
    ensures tasks[t].cls == cls ==> InClass(tasks, on - {t}, cls) == InClass(tasks, on, cls) - {t}
                                    && t in InClass(tasks, on, cls)
    ensures tasks[t].cls != cls ==> InClass(tasks, on - {t}, cls) == InClass(tasks, on, cls)
  {
  }

  lemma RtLess(rt: seq<seq<Tid>>, tasks: Tasks, on: set<Tid>, t: Tid)
    requires RtLinked(rt, tasks, on) && t in on
    ensures t in tasks && |rt| == MAX_RT_PRIO
    ensures tasks[t].cls == RtClass ==>
      var p := tasks[t].prio;
      0 <= p < MAX_RT_PRIO && RtLinked(rt[p := Remove(rt[p], t)], tasks, on - {t})
    ensures tasks[t].cls != RtClass ==> RtLinked(rt, tasks, on - {t})
  {
    if tasks[t].cls == RtClass {
      RemoveKeeps(rt[tasks[t].prio], t);
    }
  }

  lemma WrrLess(wrr: seq<Tid>, tasks: Tasks, on: set<Tid>, t: Tid)
    requires WrrLinked(wrr, tasks, on) && t in on && t in tasks
    ensures WrrLinked(if tasks[t].cls == WrrClass then Remove(wrr, t) else wrr, tasks, on - {t})
  {
    RemoveKeeps(wrr, t);
    InClassLess(tasks, on, t, WrrClass);
    hide InClass, Unique, Remove;
  }

  lemma CountedLess(s: State, on: set<Tid>, t: Tid)
    requires Counted(s, on) && t in on && t in s.tasks
    ensures s.nrRunning > 0
    ensures s.tasks[t].cls == RtClass ==>
      s.rtNr > 0 && Counted(s.(rtNr := s.rtNr - 1, nrRunning := s.nrRunning - 1), on - {t})
    ensures s.tasks[t].cls == WrrClass ==>
      s.wrrNr > 0 && Counted(s.(wrrNr := s.wrrNr - 1, nrRunning := s.nrRunning - 1), on - {t})
    ensures s.tasks[t].cls == FairClass ==>
      s.fairNr > 0 && Counted(s.(fair := s.fair - {t}, fairNr := s.fairNr - 1, nrRunning := s.nrRunning - 1), on - {t})
  {
    InClassLess(s.tasks, on, t, RtClass);
    InClassLess(s.tasks, on, t, WrrClass);
    InClassLess(s.tasks, on, t, FairClass);
    hide InClass;
  }

  lemma CountsOnly(s: State, s': State, on: set<Tid>)
    requires Counted(s, on) && s' == s.(rt := s'.rt, wrr := s'.wrr)
    ensures Counted(s', on)
  {
  }

  lemma DequeueLinked(s: State, on: set<Tid>, t: Tid)
    requires Linked(s, on) && t in on
    ensures Linked(DequeueTask(s, t), on - {t})
  {
    hide RtLinked, WrrLinked, Counted, Remove;
    RtLess(s.rt, s.tasks, on, t);
    WrrLess(s.wrr, s.tasks, on, t);
    CountedLess(s, on, t);
    var s' := DequeueTask(s, t);
    match s.tasks[t].cls
    case RtClass => CountsOnly(s.(rtNr := s.rtNr - 1, nrRunning := s.nrRunning - 1), s', on - {t});
    case WrrClass => CountsOnly(s.(wrrNr := s.wrrNr - 1, nrRunning := s.nrRunning - 1), s', on - {t});
    case FairClass =>
  }

  lemma RtMore(rt: seq<seq<Tid>>, tasks: Tasks, on: set<Tid>, t: Tid, head: bool)
    requires RtLinked(rt, tasks, on) && t !in on && t in tasks
    requires tasks[t].cls == RtClass ==> 0 <= tasks[t].prio < MAX_RT_PRIO
    ensures |rt| == MAX_RT_PRIO
    ensures tasks[t].cls == RtClass ==> RtLinked(rt[tasks[t].prio := AddTo(rt[tasks[t].prio], t, head)], tasks, on + {t})
    ensures tasks[t].cls != RtClass ==> RtLinked(rt, tasks, on + {t})
  {
    if tasks[t].cls == RtClass {
      AddToKeeps(rt[tasks[t].prio], t, head);
    }
  }

  lemma InClassMore(tasks: Tasks, on: set<Tid>, t: Tid, cls: Class)
    requires t !in on && t in tasks
    ensures t !in InClass(tasks, on, cls)
    ensures InClass(tasks, on + {t}, cls) == if tasks[t].cls == cls then InClass(tasks, on, cls) + {t} else InClass(tasks, on, cls)
  {
  }

  lemma WrrMore(wrr: seq<Tid>, tasks: Tasks, on: set<Tid>, t: Tid, head: bool)
    requires WrrLinked(wrr, tasks, on) && t !in on && t in tasks
    ensures WrrLinked(if tasks[t].cls == WrrClass then AddTo(wrr, t, head) else wrr, tasks, on + {t})
  {
    InClassMore(tasks, on, t, WrrClass);
    AddToKeeps(wrr, t, head);
    hide InClass, Unique, AddTo;
  }

  lemma CountedMore(s: State, on: set<Tid>, t: Tid)
    requires Counted(s, on) && t !in on && t in s.tasks
    ensures var cls := s.tasks[t].cls;
      && (cls == RtClass ==> Counted(s.(rtNr := s.rtNr + 1, nrRunning := s.nrRunning + 1), on + {t}))
      && (cls == WrrClass ==> Counted(s.(wrrNr := s.wrrNr + 1, nrRunning := s.nrRunning + 1), on + {t}))
      && (cls == FairClass ==>
           Counted(s.(fair := s.fair + {t}, fairNr := s.fairNr + 1, nrRunning := s.nrRunning + 1), on + {t}))
  {
    InClassMore(s.tasks, on, t, RtClass);
    InClassMore(s.tasks, on, t, WrrClass);
    InClassMore(s.tasks, on, t, FairClass);
    hide InClass;
  }

  lemma EnqueueLinked(s: State, on: set<Tid>, t: Tid, head: bool)
    requires Linked(s, on) && t !in on && t in s.tasks
    requires s.tasks[t].cls == RtClass ==> 0 <= s.tasks[t].prio < MAX_RT_PRIO
    ensures Linked(EnqueueTask(s, t, head), on + {t})
  {
    hide RtLinked, WrrLinked, Counted, AddTo;
    RtMore(s.rt, s.tasks, on, t, head);
    WrrMore(s.wrr, s.tasks, on, t, head);
    CountedMore(s, on, t);
    var s' := EnqueueTask(s, t, head);
    match s.tasks[t].cls
    case RtClass => CountsOnly(s.(rtNr := s.rtNr + 1, nrRunning := s.nrRunning + 1), s', on + {t});
    case WrrClass => CountsOnly(s.(wrrNr := s.wrrNr + 1, nrRunning := s.nrRunning + 1), s', on + {t});
    case FairClass =>
  }

  lemma StoreLinked(s: State, on: set<Tid>, t: Tid, task: Task)
    requires Linked(s, on) && t !in on
    ensures Linked(Store(s, t, task), on)
  {
    assert forall c :: InClass(Store(s, t, task).tasks, on, c) == InClass(s.tasks, on, c);
  }

  /** What a change may store. */
  predicate StaysQueued(task: Task, task': Task) {
    task'.onRq == task.onRq && TaskOk(task')
  }

  lemma ChangeKeeps(s: State, t: Tid, task: Task, head: bool)
    requires Inv(s) && t in s.tasks && StaysQueued(s.tasks[t], task)
    ensures Inv(Change(s, t, task, head))
  {
    hide Linked, TaskOk, Change;
    ChangeEntry(s, t, task, head);
    LevelOk(task);
    ChangeLinked(s, t, task, head);
    assert OnRq(Change(s, t, task, head)) == OnRq(s);
  }

  lemma LevelOk(task: Task)
    requires TaskOk(task)
    ensures task.cls == RtClass ==> 0 <= task.prio < MAX_RT_PRIO
  {
  }

  lemma ChangeLinked(s: State, t: Tid, task: Task, head: bool)
    requires Linked(s, OnRq(s)) && t in s.tasks && (task.cls == RtClass ==> 0 <= task.prio < MAX_RT_PRIO)
    ensures Linked(Change(s, t, task, head), OnRq(s))
  {
    var on := OnRq(s);
    hide Linked, DequeueTask, EnqueueTask;
    if s.tasks[t].onRq {
      DequeueLinked(s, on, t);
      var off := DequeueTask(s, t);
      StoreLinked(off, on - {t}, t, task);
      EnqueueLinked(Store(off, t, task), on - {t}, t, head);
      assert on - {t} + {t} == on;
    } else {
      StoreLinked(s, on, t, task);
    }
  }

  lemma ChangeEntry(s: State, t: Tid, task: Task, head: bool)
    requires t in s.tasks
    ensures Change(s, t, task, head).tasks == s.tasks[t := task]
  {
  }

  // ---------------------------------------------------------------------------
  // every operation
  // ---------------------------------------------------------------------------

  datatype Step =
    | Inherit(t: Tid, pi: int)
    | Renice(t: Tid, nice: int)
    | Reschedule(t: Tid, request: Request, pi: int)
    | Forked(parent: Tid, child: Tid)
    | Wake(t: Tid)
    | Block(t: Tid)
    | Aged(t: Tid)
    | Throttle(throttled: bool)

  /** A waiter's priority may be any: one of the wrr class can have aged beyond 140.  A child
      is new. */
  predicate Enabled(s: State, step: Step) {
    match step
    case Inherit(t, pi) => t in s.tasks && 0 <= pi
    case Renice(t, _) => t in s.tasks
    case Reschedule(t, _, pi) => t in s.tasks && 0 <= pi
    case Forked(parent, child) => parent in s.tasks && child !in s.tasks
    case Wake(t) => t in s.tasks
    case Block(t) => t in s.tasks
    case Aged(t) => t in s.tasks
    case Throttle(_) => true
  }

  /** Priority inheritance sets the better of the task's own and its waiters' priority. */
  function Next(s: State, step: Step): State
    requires Enabled(s, step)
  {
    match step
    case Inherit(t, pi) => RtMutexSetprio(s, t, Min(s.tasks[t].normalPrio, pi))
    case Renice(t, nice) => SetUserNice(s, t, nice)
    case Reschedule(t, request, pi) => SetScheduler(s, t, request, pi)
    case Forked(parent, child) => Fork(s, parent, child)
    case Wake(t) => WakeUp(s, t)
    case Block(t) => Sleep(s, t)
    case Aged(t) => Age(s, t)
    case Throttle(throttled) => s.(rtThrottled := throttled)
  }

  lemma BoostedOk(task: Task, pi: int)
    requires TaskOk(task) && 0 <= pi
    ensures StaysQueued(task, Boosted(task, Min(task.normalPrio, pi)))
  {
  }

  lemma RenicedOk(task: Task, nice: int)
    requires TaskOk(task) && -20 <= nice <= 19
    ensures StaysQueued(task, Reniced(task, MAX_RT_PRIO + nice + 20))
  {
  }

  lemma RescheduledOk(task: Task, r: Request, pi: int)
    requires TaskOk(task) && 0 <= pi && Refusal(task, r) == Success
    ensures var policy := if r.policy < 0 then task.policy else r.policy;
            var reset := if r.policy < 0 then task.resetOnFork else r.reset;
            StaysQueued(task, Rescheduled(task, policy, r.rtPriority, reset, pi))
  {
  }

  lemma ChildOk(parent: Task)
    requires TaskOk(parent)
    ensures TaskOk(Child(parent)) && !Child(parent).onRq
  {
  }

  /** Storing an entry that keeps class, level and mark touches no queue. */
  lemma RestoreKeeps(s: State, on: set<Tid>, t: Tid, task: Task)
    requires Linked(s, on) && t in s.tasks
    requires task.cls == s.tasks[t].cls && (task.cls == RtClass ==> task.prio == s.tasks[t].prio)
    ensures Linked(Store(s, t, task), on)
  {
    var tasks' := s.tasks[t := task];
    assert forall c :: InClass(tasks', on, c) == InClass(s.tasks, on, c);
    assert forall u, i: nat :: AtLevel(tasks', on, u, i) == AtLevel(s.tasks, on, u, i);
  }

  lemma RestoredInv(s: State, t: Tid, task: Task, on: set<Tid>, s': State)
    requires Inv(s) && TaskOk(task) && Linked(s', on)
    requires s'.tasks == s.tasks[t := task] && on == if task.onRq then OnRq(s) + {t} else OnRq(s) - {t}
    ensures Inv(s')
  {
    hide Linked, TaskOk;
    assert OnRq(s') == on;
  }

  lemma QueuedLevel(s: State, t: Tid)
    requires Inv(s) && t in s.tasks
    ensures s.tasks[t].cls == RtClass ==> 0 <= s.tasks[t].prio < MAX_RT_PRIO
  {
  }

  lemma TableStays(s: State, t: Tid, head: bool)
    requires t in s.tasks
    ensures EnqueueTask(s, t, head).tasks == s.tasks && DequeueTask(s, t).tasks == s.tasks
  {
  }

  lemma WakeKeeps(s: State, t: Tid)
    requires Inv(s) && t in s.tasks
    ensures Inv(WakeUp(s, t))
  {
    if !s.tasks[t].onRq {
      var task, on := s.tasks[t].(onRq := true), OnRq(s) + {t};
      QueuedLevel(s, t);
      TableStays(s, t, false);
      hide Linked, EnqueueTask, TaskOk;
      EnqueueLinked(s, OnRq(s), t, false);
      RestoreKeeps(EnqueueTask(s, t, false), on, t, task);
      assert TaskOk(task) by {
        MarkOnly(s.tasks[t], task);
      }
      RestoredInv(s, t, task, on, WakeUp(s, t));
    }
  }

  lemma MarkOnly(task: Task, task': Task)
    requires TaskOk(task) && task' == task.(onRq := task'.onRq)
    ensures TaskOk(task')
  {
  }

  lemma SleepKeeps(s: State, t: Tid)
    requires Inv(s) && t in s.tasks
    ensures Inv(Sleep(s, t))
  {
    if s.tasks[t].onRq {
      var task, on := s.tasks[t].(onRq := false), OnRq(s) - {t};
      TableStays(s, t, false);
      hide Linked, DequeueTask, TaskOk;
      DequeueLinked(s, OnRq(s), t);
      RestoreKeeps(DequeueTask(s, t), on, t, task);
      assert TaskOk(task) by {
        MarkOnly(s.tasks[t], task);
      }
      RestoredInv(s, t, task, on, Sleep(s, t));
    }
  }

  lemma StoreKeeps(s: State, t: Tid, task: Task)
    requires Inv(s) && TaskOk(task)
    requires t in s.tasks ==> task.onRq == s.tasks[t].onRq && task.cls == s.tasks[t].cls
                              && (task.cls == RtClass ==> task.prio == s.tasks[t].prio)
    requires t !in s.tasks ==> !task.onRq
    ensures Inv(Store(s, t, task))
  {
    if t in s.tasks {
      RestoreKeeps(s, OnRq(s), t, task);
    } else {
      StoreLinked(s, OnRq(s), t, task);
    }
    assert OnRq(s) == if task.onRq then OnRq(s) + {t} else OnRq(s) - {t};
    hide Linked, TaskOk;
    RestoredInv(s, t, task, OnRq(s), Store(s, t, task));
  }

  lemma NextKeeps(s: State, step: Step)
    requires Inv(s) && Enabled(s, step)
    ensures Inv(Next(s, step))
  {
    hide Linked, Change, StaysQueued, Rescheduled, Reniced, Boosted, Child, Refusal;
    match step
    case Inherit(t, pi) =>
      BoostedOk(s.tasks[t], pi);
      ChangeKeeps(s, t, Boosted(s.tasks[t], Min(s.tasks[t].normalPrio, pi)), s.tasks[t].prio < Min(s.tasks[t].normalPrio, pi));
    case Renice(t, nice) => ReniceKeeps(s, t, nice);
    case Reschedule(t, r, pi) => RescheduleKeeps(s, t, r, pi);
    case Forked(parent, child) =>
      ChildOk(s.tasks[parent]);
      StoreKeeps(s, child, Child(s.tasks[parent]));
    case Wake(t) => WakeKeeps(s, t);
    case Block(t) => SleepKeeps(s, t);
    case Aged(t) => AgeKeeps(s, t);
    case Throttle(throttled) => ThrottleKeeps(s, throttled);
  }

  lemma ThrottleKeeps(s: State, throttled: bool)
    requires Inv(s)
    ensures Inv(s.(rtThrottled := throttled))
  {
  }

  lemma AgeKeeps(s: State, t: Tid)
    requires Inv(s) && t in s.tasks
    ensures Inv(Age(s, t))
  {
    if s.tasks[t].cls == WrrClass {
      StoreKeeps(s, t, s.tasks[t].(prio := Min(s.tasks[t].prio + 1, WRR_MAX_PRIO)));
    }
  }

  lemma ReniceKeeps(s: State, t: Tid, nice: int)
    requires Inv(s) && t in s.tasks
    ensures Inv(SetUserNice(s, t, nice))
  {
    hide Linked, Change;
    if -20 <= nice <= 19 {
      RenicedOk(s.tasks[t], nice);
      var task := Reniced(s.tasks[t], MAX_RT_PRIO + nice + 20);
      if RtPolicy(s.tasks[t].policy) {
        StoreKeeps(s, t, task);
      } else {
        ChangeKeeps(s, t, task, false);
      }
    }
  }

  lemma RescheduleKeeps(s: State, t: Tid, r: Request, pi: int)
    requires Inv(s) && t in s.tasks && 0 <= pi
    ensures Inv(SetScheduler(s, t, r, pi))
  {
    hide Linked, Change, StaysQueued, Rescheduled;
    if Refusal(s.tasks[t], r) == Success {
      RescheduledOk(s.tasks[t], r, pi);
      var policy := if r.policy < 0 then s.tasks[t].policy else r.policy;
      var reset := if r.policy < 0 then s.tasks[t].resetOnFork else r.reset;
      ChangeKeeps(s, t, Rescheduled(s.tasks[t], policy, r.rtPriority, reset, pi), false);
    }
  }

  predicate IsRun(states: seq<State>, steps: seq<Step>) {
    && |states| == |steps| + 1
    && forall k: nat | k < |steps| :: Enabled(states[k], steps[k]) && states[k + 1] == Next(states[k], steps[k])
  }

  /** In every state of every run a queued task stands in exactly the queue of its class, and
      the counters are right. */
  lemma {:induction false} RunInv(states: seq<State>, steps: seq<Step>, n: nat)
    requires IsRun(states, steps) && Inv(states[0]) && n < |states|
    ensures Inv(states[n])
  {
    if n > 0 {
      RunInv(states, steps, n - 1);
      NextKeeps(states[n - 1], steps[n - 1]);
    }
  }

  /** What the invariant says of one task: it is queued exactly when marked so, and then only
      where its class puts it. */
  lemma QueuedInItsClass(s: State, t: Tid)
    requires Inv(s) && t in s.tasks
    ensures var task := s.tasks[t];
      && (task.onRq <==> (exists i: nat | i < |s.rt| :: t in s.rt[i]) || t in s.wrr || t in s.fair)
      && (t in s.wrr ==> task.cls == WrrClass && task.policy == SCHED_WRR)
      && (t in s.fair ==> task.cls == FairClass)
      && forall i: nat | i < |s.rt| :: t in s.rt[i] ==> task.cls == RtClass && task.prio == i
    ensures s.nrRunning == |OnRq(s)|
  {
    var task := s.tasks[t];
    if task.onRq && task.cls == RtClass {
      assert AtLevel(s.tasks, OnRq(s), t, task.prio);
      assert t in s.rt[task.prio];
    }
    CountSplits(s.tasks, OnRq(s));
  }

  lemma CountSplits(tasks: Tasks, on: set<Tid>)
    requires forall t <- on :: t in tasks
    ensures |on| == |InClass(tasks, on, RtClass)| + |InClass(tasks, on, WrrClass)| + |InClass(tasks, on, FairClass)|
  {
    var r, w, f := InClass(tasks, on, RtClass), InClass(tasks, on, WrrClass), InClass(tasks, on, FairClass);
    assert on == r + w + f;
    assert r !! w && (r + w) !! f;
  }

  // ---------------------------------------------------------------------------
  // the pick
  // ---------------------------------------------------------------------------

  /** The shortcut is taken exactly when no real-time and no wrr task is queued and a fair
      one is. */
  lemma ShortcutTaken(s: State)
    requires Inv(s)
    ensures s.nrRunning == s.fairNr && s.fairNr > 0 <==> (forall t <- OnRq(s) :: s.tasks[t].cls == FairClass) && OnRq(s) != {}
  {
    var on := OnRq(s);
    CountSplits(s.tasks, on);
    if exists t <- on :: s.tasks[t].cls != FairClass {
      var t :| t in on && s.tasks[t].cls != FairClass;
      assert t in InClass(s.tasks, on, s.tasks[t].cls);
    } else {
      assert InClass(s.tasks, on, RtClass) == {};
      assert InClass(s.tasks, on, WrrClass) == {};
    }
  }

  /** It never changes the outcome. */
  lemma ShortcutAgrees(s: State, choose: set<Tid> -> Tid)
    requires Inv(s)
    ensures PickNext(s, choose) == ScanPick(s, choose)
  {
  }

  /** Without the counts agreeing it would: a queue whose `nr_running` lost one task passes
      over a real-time task. */
  lemma ShortcutNeedsCounts()
    ensures exists s: State, choose: set<Tid> -> Tid ::
      s.nrRunning + 1 == s.rtNr + s.wrrNr + s.fairNr && PickNext(s, choose) != ScanPick(s, choose)
  {
    var s := State([[7]], [], {8}, 1, 0, 1, 1, false, map[]);
    var choose := (_: set<Tid>) => 8;
    assert ScanPick(s, choose) == Picked(7);
    assert PickNext(s, choose) == Picked(8);
  }

  lemma RtPickIsBest(s: State)
    requires Inv(s)
    ensures RtPick(s).Idle? <==> s.rtThrottled || InClass(s.tasks, OnRq(s), RtClass) == {}
    ensures RtPick(s).Picked? ==>
      && RtPick(s).t in InClass(s.tasks, OnRq(s), RtClass)
      && forall t <- InClass(s.tasks, OnRq(s), RtClass) :: s.tasks[RtPick(s).t].prio <= s.tasks[t].prio
  {
    var on := OnRq(s);
    var i := RtModel.FrontFrom(s.rt, 0);
    forall t <- InClass(s.tasks, on, RtClass) ensures i <= s.tasks[t].prio {
      assert AtLevel(s.tasks, on, t, s.tasks[t].prio);
      assert t in s.rt[s.tasks[t].prio];
    }
    if i < MAX_RT_PRIO {
      assert s.rt[i][0] in s.rt[i];
      assert AtLevel(s.tasks, on, s.rt[i][0], i);
    }
  }

  lemma WrrPickIsHead(s: State)
    requires Inv(s)
    ensures WrrPick(s).Idle? <==> InClass(s.tasks, OnRq(s), WrrClass) == {}
    ensures WrrPick(s).Picked? ==> s.wrr != [] && WrrPick(s).t == s.wrr[0] && s.wrr[0] in InClass(s.tasks, OnRq(s), WrrClass)
    ensures s.wrr == [] <==> InClass(s.tasks, OnRq(s), WrrClass) == {}
  {
    if s.wrr != [] {
      assert s.wrr[0] in s.wrr;
    }
    if InClass(s.tasks, OnRq(s), WrrClass) != {} {
      var t :| t in InClass(s.tasks, OnRq(s), WrrClass);
      assert t in s.wrr;
    }
  }

  /** The pick is a queued task of the first class that has one and is not throttled: the
      most urgent in the real-time class, the head of the wrr queue.  Idle means that
      nothing is queued that could run. */
  lemma PickRespectsClasses(s: State, choose: set<Tid> -> Tid)
    requires Inv(s) && forall f: set<Tid> :: f != {} ==> choose(f) in f
    ensures var (p, on) := (PickNext(s, choose), OnRq(s));
      var (rt, wrr, fair) := (InClass(s.tasks, on, RtClass), InClass(s.tasks, on, WrrClass), InClass(s.tasks, on, FairClass));
      if rt != {} && !s.rtThrottled then
        p.Picked? && p.t in rt && forall t <- rt :: s.tasks[p.t].prio <= s.tasks[t].prio
      else if wrr != {} then
        s.wrr != [] && p == Picked(s.wrr[0]) && s.wrr[0] in wrr
      else if fair != {} then
        p.Picked? && p.t in fair
      else
        p.Idle?
  {
    ShortcutAgrees(s, choose);
    RtPickIsBest(s);
    WrrPickIsHead(s);
    FairPickIsSome(s, choose);
    hide Inv, InClass, OnRq, RtPick, WrrPick, FairPick;
  }

  lemma FairPickIsSome(s: State, choose: set<Tid> -> Tid)
    requires Inv(s) && forall f: set<Tid> :: f != {} ==> choose(f) in f
    ensures FairPick(s, choose).Idle? <==> InClass(s.tasks, OnRq(s), FairClass) == {}
    ensures FairPick(s, choose).Picked? ==> FairPick(s, choose).t in InClass(s.tasks, OnRq(s), FairClass)
  {
  }

  // ---------------------------------------------------------------------------
  // policy and class
  // ---------------------------------------------------------------------------

  /** A child of a wrr task is fair and keeps policy 6. */
  lemma WrrChildIsFair(parent: Task)
    requires TaskOk(parent) && parent.cls == WrrClass
    ensures Child(parent).cls == FairClass && Child(parent).policy == SCHED_WRR
  {
  }

  /** Asking for policy 6 puts a task in the wrr class exactly when it was there already or
      its policy was another: one that lost the class with the policy unchanged stays out. */
  lemma WrrRequestWorksIff(s: State, t: Tid, r: Request, pi: int)
    requires Inv(s) && t in s.tasks && 0 <= pi
    requires r.policy == SCHED_WRR && Refusal(s.tasks[t], r) == Success
    ensures SetScheduler(s, t, r, pi).tasks[t].cls == WrrClass
            <==> s.tasks[t].cls == WrrClass || s.tasks[t].policy != SCHED_WRR
  {
  }

  // ---------------------------------------------------------------------------
  // the code
  // ---------------------------------------------------------------------------

  class RunQueue {
    var rt: seq<seq<Tid>>
    var wrr: seq<Tid>
    var fair: set<Tid>
    var rtNr: nat
    var wrrNr: nat
    var fairNr: nat
    var nrRunning: nat
    var rtThrottled: bool
    var tasks: Tasks

    ghost function Abs(): State
      reads this
    {
      State(rt, wrr, fair, rtNr, wrrNr, fairNr, nrRunning, rtThrottled, tasks)
    }

    ghost predicate Valid()
      reads this
    {
      Inv(Abs())
    }

    constructor (tasks: Tasks)
      requires forall t <- tasks :: TaskOk(tasks[t]) && !tasks[t].onRq
      ensures Valid() && Abs() == State(seq(MAX_RT_PRIO, _ => []), [], {}, 0, 0, 0, 0, false, tasks)
    {
      rt := seq(MAX_RT_PRIO, _ => []);
      wrr, fair, rtNr, wrrNr, fairNr, nrRunning, rtThrottled := [], {}, 0, 0, 0, 0, false;
      this.tasks := tasks;
      new;
      assert OnRq(Abs()) == {};
      assert forall c :: InClass(tasks, {}, c) == {};
    }

    method Enqueue(t: Tid, head: bool)
      requires t in tasks && |rt| == MAX_RT_PRIO
      requires tasks[t].cls == RtClass ==> 0 <= tasks[t].prio < MAX_RT_PRIO
      modifies this`rt, this`wrr, this`fair, this`rtNr, this`wrrNr, this`fairNr, this`nrRunning
      ensures Abs() == EnqueueTask(old(Abs()), t, head)
    {
      match tasks[t].cls {
        case RtClass =>
          var prio: nat := tasks[t].prio;
          rt := rt[prio := AddTo(rt[prio], t, head)];
          rtNr := rtNr + 1;
        case WrrClass =>
          wrr := AddTo(wrr, t, head);
          wrrNr := wrrNr + 1;
        case FairClass =>
          fair := fair + {t};
          fairNr := fairNr + 1;
      }
      nrRunning := nrRunning + 1;
    }

    /** No counter is ever taken below zero. */
    method Dequeue(t: Tid)
      requires Valid() && t in tasks && tasks[t].onRq
      modifies this`rt, this`wrr, this`fair, this`rtNr, this`wrrNr, this`fairNr, this`nrRunning
      ensures Abs() == DequeueTask(old(Abs()), t)
    {
      NothingBelowZero(Abs(), t);
      hide Inv, Remove;
      match tasks[t].cls {
        case RtClass =>
          var prio: nat := tasks[t].prio;
          rt := rt[prio := Remove(rt[prio], t)];
          rtNr := rtNr - 1;
        case WrrClass =>
          wrr := Remove(wrr, t);
          wrrNr := wrrNr - 1;
        case FairClass =>
          fair := fair - {t};
          fairNr := fairNr - 1;
      }
      nrRunning := nrRunning - 1;
    }

    /** The frame of every change: off the queue, the new entry, and on again. */
    method Apply(t: Tid, task: Task, head: bool)
      requires Valid() && t in tasks
      requires task.cls == RtClass ==> 0 <= task.prio < MAX_RT_PRIO
      modifies this
      ensures Abs() == Change(old(Abs()), t, task, head)
    {
      LevelsInRange(Abs());
      hide Inv;
      var onRq := tasks[t].onRq;
      if onRq {
        Dequeue(t);
      }
      tasks := tasks[t := task];
      if onRq {
        Enqueue(t, head);
      }
    }

    /** `rt_mutex_setprio`. */
    method SetPrio(t: Tid, pi: int)
      requires Valid() && t in tasks && 0 <= pi
      modifies this
      ensures Valid() && Abs() == Next(old(Abs()), Inherit(t, pi))
    {
      NextKeeps(Abs(), Inherit(t, pi));
      BoostedOk(tasks[t], pi);
      hide Inv, Change;
      var prio := Min(tasks[t].normalPrio, pi);
      var task := if prio < MAX_RT_PRIO then tasks[t].(cls := RtClass) else tasks[t].(cls := FairClass);
      task := task.(prio := prio);
      Apply(t, task, tasks[t].prio < prio);
    }

    method Renice(t: Tid, nice: int)
      requires Valid() && t in tasks
      modifies this
      ensures Valid() && Abs() == SetUserNice(old(Abs()), t, nice)
    {
      ReniceKeeps(Abs(), t, nice);
      hide Inv, Change;
      var staticPrio := MAX_RT_PRIO + nice + 20;
      if tasks[t].staticPrio == staticPrio || nice < -20 || nice > 19 {
        return;
      }
      if RtPolicy(tasks[t].policy) {
        tasks := tasks[t := tasks[t].(staticPrio := staticPrio)];
        return;
      }
      RenicedOk(tasks[t], nice);
      var task := tasks[t].(staticPrio := staticPrio);
      task := task.(normalPrio := NormalPrio(task));
      if !(task.prio < MAX_RT_PRIO) {
        task := task.(prio := task.normalPrio);
      }
      Apply(t, task, false);
    }

    /** `__sched_setscheduler`. */
    method SchedSetscheduler(t: Tid, r: Request, pi: int) returns (result: Result)
      requires Valid() && t in tasks && 0 <= pi
      modifies this
      ensures Valid() && Abs() == SetScheduler(old(Abs()), t, r, pi)
      ensures result == Refusal(old(tasks)[t], r)
    {
      RescheduleKeeps(Abs(), t, r, pi);
      RescheduledLevel(tasks[t], r, pi);
      hide Inv, Change;
      var policy, reset := r.policy, r.reset;
      if policy < 0 {
        policy, reset := tasks[t].policy, tasks[t].resetOnFork;
      } else if !ValidPolicy(policy) {
        return InvalidArgument;
      }
      if r.rtPriority < 0 || r.rtPriority > MAX_RT_PRIO - 1 {
        return InvalidArgument;
      }
      if RtPolicy(policy) != (r.rtPriority != 0) && policy != SCHED_WRR {
        return InvalidArgument;
      }
      if !r.permitted {
        return NotPermitted;
      }
      if policy == tasks[t].policy && (!RtPolicy(policy) || r.rtPriority == tasks[t].rtPriority) {
        return Success;
      }
      var task := tasks[t].(resetOnFork := reset, policy := policy, rtPriority := r.rtPriority);
      task := task.(normalPrio := NormalPrio(task));
      task := task.(prio := Min(task.normalPrio, pi));
      if policy == 6 {
        task := task.(cls := WrrClass);
      } else if task.prio < MAX_RT_PRIO {
        task := task.(cls := RtClass);
      } else {
        task := task.(cls := FairClass);
      }
      Apply(t, task, false);
      result := Success;
    }

    /** `sched_fork`. */
    method SchedFork(parent: Tid, child: Tid)
      requires Valid() && parent in tasks && child !in tasks
      modifies this`tasks
      ensures Valid() && Abs() == Next(old(Abs()), Forked(parent, child))
    {
      NextKeeps(Abs(), Forked(parent, child));
      var c := tasks[parent].(onRq := false);
      c := c.(prio := c.normalPrio);
      if c.resetOnFork {
        if RtPolicy(c.policy) {
          c := c.(policy := SCHED_NORMAL, staticPrio := DEFAULT_PRIO, rtPriority := 0);
        } else if c.staticPrio < DEFAULT_PRIO {
          c := c.(staticPrio := DEFAULT_PRIO);
        }
        c := c.(normalPrio := c.staticPrio);
        c := c.(prio := c.normalPrio, resetOnFork := false);
      }
      if !(c.prio < MAX_RT_PRIO) {
        c := c.(cls := FairClass);
      }
      tasks := tasks[child := c];
    }

    method ActivateTask(t: Tid)
      requires Valid() && t in tasks && !tasks[t].onRq
      modifies this
      ensures Valid() && Abs() == Next(old(Abs()), Wake(t))
    {
      NextKeeps(Abs(), Wake(t));
      QueuedLevel(Abs(), t);
      LevelsInRange(Abs());
      hide Inv;
      Enqueue(t, false);
      tasks := tasks[t := tasks[t].(onRq := true)];
    }

    method DeactivateTask(t: Tid)
      requires Valid() && t in tasks && tasks[t].onRq
      modifies this
      ensures Valid() && Abs() == Next(old(Abs()), Block(t))
    {
      NextKeeps(Abs(), Block(t));
      hide Inv;
      Dequeue(t);
      tasks := tasks[t := tasks[t].(onRq := false)];
    }

    /** `pick_next_task`: what the walk over the classes returns, whichever way is taken. */
    method PickNextTask(choose: set<Tid> -> Tid) returns (p: Pick)
      requires Valid()
      ensures p == ScanPick(Abs(), choose)
    {
      ShortcutAgrees(Abs(), choose);
      hide Inv, ScanPick, RtPick, WrrPick;
      if nrRunning == fairNr {
        p := PickFair(choose);
        if p.Picked? {
          return;
        }
      }
      p := Scan(choose);
    }

    method PickFair(choose: set<Tid> -> Tid) returns (p: Pick)
      ensures p == FairPick(Abs(), choose)
    {
      p := if fairNr == 0 then Idle else Picked(choose(fair));
    }

    method Scan(choose: set<Tid> -> Tid) returns (p: Pick)
      requires Valid()
      ensures p == ScanPick(Abs(), choose)
    {
      RtPickIsBest(Abs());
      hide Linked;
      if rtNr != 0 && !rtThrottled {
        var i: nat := 0;
        while i < |rt| && rt[i] == []
          invariant i <= |rt| && RtModel.FrontFrom(rt, i) == RtModel.FrontFrom(rt, 0)
        {
          i := i + 1;
        }
        if i < |rt| {
          return Picked(rt[i][0]);
        }
      }
      if wrrNr != 0 && wrr != [] {
        return Picked(wrr[0]);
      }
      p := PickFair(choose);
    }
  }

  lemma NothingBelowZero(s: State, t: Tid)
    requires Inv(s) && t in s.tasks && s.tasks[t].onRq
    ensures s.nrRunning > 0 && |s.rt| == MAX_RT_PRIO
    ensures match s.tasks[t].cls
            case RtClass => s.rtNr > 0 && 0 <= s.tasks[t].prio < MAX_RT_PRIO
            case WrrClass => s.wrrNr > 0
            case FairClass => s.fairNr > 0
  {
    CountedLess(s, OnRq(s), t);
  }

  lemma RescheduledLevel(task: Task, r: Request, pi: int)
    requires TaskOk(task) && 0 <= pi
    ensures Refusal(task, r) == Success ==>
      var policy := if r.policy < 0 then task.policy else r.policy;
      var reset := if r.policy < 0 then task.resetOnFork else r.reset;
      var task' := Rescheduled(task, policy, r.rtPriority, reset, pi);
      task'.cls == RtClass ==> 0 <= task'.prio < MAX_RT_PRIO
  {
  }

  lemma LevelsInRange(s: State)
    requires Inv(s)
    ensures |s.rt| == MAX_RT_PRIO
  {
  }
}
