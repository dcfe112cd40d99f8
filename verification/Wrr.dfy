/** Weighted round robin on one CPU: a single queue whose head runs, a slice per task that
    each tick shortens, and a move to the tail when the slice is used up. */
module Wrr {
  import opened TaskLists

  const MAX_PRIO: int := 500

  /** The fields of a task this class reads or writes.  `wrrPolicy` is `policy == SCHED_WRR`;
      `fore` says that the task's group is the root group. */
  datatype Task = Task(slice: nat, prio: int, wrrPolicy: bool, fore: bool)

  type Tasks = map<Tid, Task>

  /** `curr` is none while a task of another class runs; `resched` is the mark that asks for
      the scheduler. */
  datatype State = State(queue: seq<Tid>, nrRunning: nat, tasks: Tasks, curr: Option<Tid>, resched: bool)

  /** A slice in ticks at `hz` ticks a second. */
  function Fore(hz: nat): nat {
    100 * hz / 1000
  }

  function Back(hz: nat): nat {
    10 * hz / 1000
  }

  function Full(hz: nat, task: Task): nat {
    if task.fore then Fore(hz) else Back(hz)
  }

  // ---------------------------------------------------------------------------
  // operations
  // ---------------------------------------------------------------------------

  /** `enqueue_task_wrr`. */
  function EnqueueTask(s: State, t: Tid, head: bool): State {
    var s' := DequeueTask(s, t);
    s'.(queue := AddTo(s'.queue, t, head), nrRunning := s'.nrRunning + 1)
  }

  /** `dequeue_task_wrr`. */
  function DequeueTask(s: State, t: Tid): State {
    if t in s.queue && s.nrRunning > 0 then s.(queue := Remove(s.queue, t), nrRunning := s.nrRunning - 1) else s
  }

  /** `requeue_task_wrr`. */
  function RequeueTask(s: State, t: Tid, head: bool): State {
    if t in s.queue then s.(queue := AddTo(Remove(s.queue, t), t, head)) else s
  }

  /** `pick_next_task_wrr`. */
  function PickNext(s: State): Option<Tid> {
    if s.nrRunning == 0 || s.queue == [] then None else Some(s.queue[0])
  }

  /** What a tick makes of the running task: the slice, refilled if it was empty, shrinks by
      one; when it is used up it is refilled. */
  function Aged(hz: nat, task: Task): Task {
    var before := if task.slice == 0 then Full(hz, task) else task.slice;
    if before > 1 then task.(slice := before - 1, prio := if task.prio + 1 > MAX_PRIO then MAX_PRIO else task.prio + 1)
    else task.(slice := Full(hz, task))
  }

  predicate LastTick(hz: nat, task: Task) {
    (if task.slice == 0 then Full(hz, task) else task.slice) <= 1
  }

  /** `task_tick_wrr` for the running task. */
  function TaskTick(hz: nat, s: State, p: Tid): State
    requires p in s.tasks
  {
    if !s.tasks[p].wrrPolicy then s
    else
      var s' := s.(tasks := s.tasks[p := Aged(hz, s.tasks[p])]);
      if LastTick(hz, s.tasks[p]) && p in s.queue && |s.queue| > 1 then
        RequeueTask(s', p, false).(resched := true)
      else s'
  }

  /** The ring of `wrr_queue` with its list head, which stands as -1. */
  function Ring(queue: seq<Tid>): seq<int> {
    seq(|queue| + 1, i requires 0 <= i <= |queue| => if i == 0 then -1 else queue[i - 1] as int)
  }

  /** The tick's test on its own list node: `prev` and `next` differ exactly when another
      task is queued too. */
  lemma NeighboursDiffer(queue: seq<Tid>, k: nat)
    requires Unique(queue) && k < |queue|
    ensures var next := if k + 2 == |queue| + 1 then 0 else k + 2;
      Ring(queue)[k] != Ring(queue)[next] <==> |queue| > 1
  {
  }

  // ---------------------------------------------------------------------------
  // runs
  // ---------------------------------------------------------------------------

  /** `Arrive` is a wake-up, `Depart` a task going to sleep.  `Enter` and `Leave` are changes
      of class, possibly of the task that is running; `Mark` is any `resched_task`. */
  datatype Step =
    | Arrive(t: Tid)
    | Depart(t: Tid)
    | Enter(t: Tid, prio: int, running: bool)
    | Leave(t: Tid, prio: int, wrrPolicy: bool)
    | Yield
    | Tick
    | Schedule(other: bool)
    | Mark
    | Regroup(t: Tid, fore: bool)
    | Renice(t: Tid, prio: int)

  /** Arrivals go to the tail: only priority inheritance enqueues at the head, and never in
      this class. */
  predicate Enabled(s: State, step: Step) {
    match step
    case Arrive(t) => t in s.tasks && t !in s.queue && s.tasks[t].wrrPolicy
    case Depart(t) => t in s.queue
    case Enter(t, _, running) => t in s.tasks && t !in s.queue && s.curr != Some(t) && (running ==> s.curr.None?)
    case Leave(t, _, _) => t in s.queue
    case Yield => s.curr.Some?
    case Tick => s.curr.Some? && s.curr.value in s.tasks
    case Schedule(_) => true
    case Mark => true
    case Regroup(t, _) => t in s.tasks
    case Renice(t, _) => t in s.tasks
  }

  /** Off the queue, the new entry, and on again at the tail, whether or not the task is
      running: the common part of `sched_move_task`, which asks for no reschedule, and of
      `set_user_nice`. */
  function Reinsert(s: State, t: Tid, task: Task): State {
    var s' := DequeueTask(s, t).(tasks := s.tasks[t := task]);
    if t in s.queue then EnqueueTask(s', t, false) else s'
  }

  /** `set_user_nice` asks for a reschedule when a queued task has become more urgent, or when
      the running task has become less so. */
  predicate NiceMarks(s: State, t: Tid, prio: int) {
    t in s.queue && t in s.tasks
    && (prio < s.tasks[t].prio || (prio > s.tasks[t].prio && s.curr == Some(t)))
  }

  /** A yield and the departure of the running task happen on the way into the scheduler. */
  function Next(hz: nat, s: State, step: Step): State
    requires Enabled(s, step)
  {
    match step
    case Arrive(t) => EnqueueTask(s, t, false)
    case Depart(t) => DequeueTask(s, t).(resched := s.resched || s.curr == Some(t))
    case Enter(t, prio, running) =>
      EnqueueTask(s.(tasks := s.tasks[t := s.tasks[t].(prio := prio, wrrPolicy := true)]), t, false)
        .(curr := if running then Some(t) else s.curr)
    case Leave(t, prio, wrrPolicy) =>
      var off := DequeueTask(s, t).(curr := if s.curr == Some(t) then None else s.curr);
      if t in s.tasks then off.(tasks := s.tasks[t := s.tasks[t].(prio := prio, wrrPolicy := wrrPolicy)]) else off
    case Yield => RequeueTask(s, s.curr.value, false).(resched := true)
    case Tick => TaskTick(hz, s, s.curr.value)
    case Schedule(other) => s.(curr := if other then None else PickNext(s), resched := false)
    case Mark => s.(resched := true)
    case Regroup(t, fore) => Reinsert(s, t, s.tasks[t].(fore := fore))
    case Renice(t, prio) =>
      Reinsert(s, t, s.tasks[t].(prio := prio)).(resched := s.resched || NiceMarks(s, t, prio))
  }

  /** No slice is longer than a full foreground slice; queued tasks have this policy; unless
      a reschedule is pending, the running task is queued, though not always at the head. */
  predicate Inv(hz: nat, s: State) {
    && Unique(s.queue) && s.nrRunning == |s.queue|
    && (forall t <- s.queue :: t in s.tasks && s.tasks[t].wrrPolicy)
    && (forall t <- s.tasks :: s.tasks[t].slice <= Fore(hz))
    && (s.curr.Some? ==> s.curr.value in s.tasks)
    && (s.curr.Some? && !s.resched ==> s.curr.value in s.queue)
  }

  /** What does hold of the head: it is what runs, unless a reschedule is pending. */
  predicate HeadRuns(s: State) {
    s.curr.Some? && !s.resched ==> s.queue != [] && s.curr.value == s.queue[0]
  }

  /** A step that puts the running task elsewhere without asking for a reschedule. */
  predicate Displaces(s: State, step: Step) {
    match step
    case Enter(_, _, running) => running && s.queue != [] && !s.resched
    case Regroup(t, _) => s.curr == Some(t) && |s.queue| > 1 && !s.resched
    case Renice(t, prio) =>
      s.curr == Some(t) && |s.queue| > 1 && !s.resched && t in s.tasks && prio == s.tasks[t].prio
    case _ => false
  }

  lemma RequeueKeeps(s: State, t: Tid, head: bool)
    requires Unique(s.queue)
    ensures Unique(RequeueTask(s, t, head).queue) && |RequeueTask(s, t, head).queue| == |s.queue|
    ensures forall u :: u in RequeueTask(s, t, head).queue <==> u in s.queue
  {
    if t in s.queue {
      RemoveKeeps(s.queue, t);
      RemoveShortens(s.queue, t);
      AddToKeeps(Remove(s.queue, t), t, head);
    }
  }

  lemma SlicesBounded(hz: nat, task: Task)
    requires hz >= 100 && task.slice <= Fore(hz)
    ensures 1 <= Aged(hz, task).slice <= Fore(hz)
  {
  }

  lemma TickKeeps(hz: nat, s: State, p: Tid)
    requires hz >= 100 && Inv(hz, s) && s.curr == Some(p)
    ensures Inv(hz, TaskTick(hz, s, p))
  {
    SlicesBounded(hz, s.tasks[p]);
    RequeueKeeps(s, p, false);
    hide Unique, Remove, AddTo;
  }

  lemma ReinsertKeeps(s: State, t: Tid, task: Task)
    requires Unique(s.queue) && s.nrRunning == |s.queue|
    ensures var s' := Reinsert(s, t, task);
      && Unique(s'.queue) && s'.nrRunning == |s'.queue| == |s.queue|
      && (forall u :: u in s'.queue <==> u in s.queue)
      && s'.queue == (if t in s.queue then Remove(s.queue, t) + [t] else s.queue)
      && s' == s.(queue := s'.queue, tasks := s.tasks[t := task])
  {
    RemoveKeeps(s.queue, t);
    RemoveShortens(s.queue, t);
    AddToKeeps(Remove(s.queue, t), t, false);
  }

  lemma EnterKeeps(hz: nat, s: State, t: Tid, prio: int, running: bool)
    requires Inv(hz, s) && Enabled(s, Enter(t, prio, running))
    ensures Inv(hz, Next(hz, s, Enter(t, prio, running)))
  {
    AddToKeeps(s.queue, t, false);
    hide Unique, Remove;
  }

  lemma OffKeeps(hz: nat, s: State, step: Step)
    requires Inv(hz, s) && Enabled(s, step) && (step.Depart? || step.Leave?)
    ensures Inv(hz, Next(hz, s, step))
  {
    RemoveKeeps(s.queue, step.t);
    RemoveShortens(s.queue, step.t);
    hide Unique, Remove;
  }

  lemma ChangeKeeps(hz: nat, s: State, t: Tid, task: Task)
    requires Inv(hz, s) && t in s.tasks
    requires task.slice == s.tasks[t].slice && task.wrrPolicy == s.tasks[t].wrrPolicy
    ensures Inv(hz, Reinsert(s, t, task))
  {
    ReinsertKeeps(s, t, task);
    hide Unique, Remove, Reinsert;
  }

  lemma NextKeeps(hz: nat, s: State, step: Step)
    requires hz >= 100 && Inv(hz, s) && Enabled(s, step)
    ensures Inv(hz, Next(hz, s, step))
  {
    hide Unique, Remove;
    match step
    case Arrive(t) => AddToKeeps(s.queue, t, false);
    case Depart(t) => OffKeeps(hz, s, step);
    case Enter(t, prio, running) => EnterKeeps(hz, s, t, prio, running);
    case Leave(_, _, _) => OffKeeps(hz, s, step);
    case Yield => RequeueKeeps(s, s.curr.value, false);
    case Tick => TickKeeps(hz, s, s.curr.value);
    case Schedule(_) =>
    case Mark =>
    case Regroup(t, fore) => ChangeKeeps(hz, s, t, s.tasks[t].(fore := fore));
    case Renice(t, prio) => ChangeKeeps(hz, s, t, s.tasks[t].(prio := prio));
  }

  /** The head clause is kept by a step exactly when the step does not displace. */
  lemma HeadRunsUnlessDisplaced(hz: nat, s: State, step: Step)
    requires hz >= 100 && Inv(hz, s) && HeadRuns(s) && Enabled(s, step)
    ensures HeadRuns(Next(hz, s, step)) <==> !Displaces(s, step)
  {
    match step
    case Regroup(t, fore) => ReinsertedHead(s, t, s.tasks[t].(fore := fore));
    case Renice(t, prio) => RenicedHead(hz, s, t, prio);
    case Depart(t) => RemovedHead(s, t);
    case Leave(t, _, _) => RemovedHead(s, t);
    case _ =>
  }

  /** A yield puts the running task behind everybody, and the scheduler is asked for. */
  lemma YieldGoesLast(hz: nat, s: State)
    requires Inv(hz, s) && s.curr.Some? && s.curr.value in s.queue
    ensures var s' := Next(hz, s, Yield);
      && s'.resched && s' == s.(queue := s'.queue, resched := true)
      && |s'.queue| == |s.queue| && s'.queue[|s'.queue| - 1] == s.curr.value
      && forall u <- s.queue | u != s.curr.value :: AheadOf(s'.queue, u) == AheadOf(s.queue, u) - {s.curr.value}
  {
    var p := s.curr.value;
    RequeueKeeps(s, p, false);
    RemoveKeeps(s.queue, p);
    var rest := Remove(s.queue, p);
    forall u <- s.queue | u != p ensures AheadOf(rest + [p], u) == AheadOf(s.queue, u) - {p} {
      AheadAfterRemove(s.queue, p, u);
      AheadAfterAdd(rest, p, u);
    }
    hide Unique, Remove, AheadOf;
  }

  lemma RenicedHead(hz: nat, s: State, t: Tid, prio: int)
    requires Inv(hz, s) && HeadRuns(s) && t in s.tasks
    ensures HeadRuns(Next(hz, s, Renice(t, prio))) <==> !Displaces(s, Renice(t, prio))
  {
    ReinsertedHead(s, t, s.tasks[t].(prio := prio));
    ReinsertKeeps(s, t, s.tasks[t].(prio := prio));
    hide Unique, Remove, Reinsert;
  }

  lemma RemovedHead(s: State, t: Tid)
    ensures s.queue != [] && s.queue[0] != t ==> Remove(s.queue, t) != [] && Remove(s.queue, t)[0] == s.queue[0]
  {
  }

  lemma ReinsertedHead(s: State, t: Tid, task: Task)
    requires Unique(s.queue) && s.nrRunning == |s.queue| && HeadRuns(s)
    requires s.curr.Some? && !s.resched ==> s.curr.value in s.queue
    ensures HeadRuns(Reinsert(s, t, task)) <==> !(s.curr == Some(t) && |s.queue| > 1 && !s.resched)
  {
    ReinsertKeeps(s, t, task);
    if t in s.queue && s.queue[0] == t {
      assert Remove(s.queue, t) == s.queue[1..];
      assert |s.queue| > 1 ==> s.queue[1] != t;
    }
  }

  predicate IsRun(hz: nat, states: seq<State>, steps: seq<Step>) {
    && |states| == |steps| + 1
    && forall k: nat | k < |steps| :: Enabled(states[k], steps[k]) && states[k + 1] == Next(hz, states[k], steps[k])
  }

  lemma {:induction false} RunInv(hz: nat, states: seq<State>, steps: seq<Step>, n: nat)
    requires hz >= 100 && IsRun(hz, states, steps) && Inv(hz, states[0]) && n < |states|
    ensures Inv(hz, states[n])
  {
    if n > 0 {
      RunInv(hz, states, steps, n - 1);
      NextKeeps(hz, states[n - 1], steps[n - 1]);
    }
  }

  // ---------------------------------------------------------------------------
  // bounded waiting
  // ---------------------------------------------------------------------------

  /** The most ticks a task can run before it goes to the tail. */
  function Cap(hz: nat, task: Task): nat {
    if task.slice == 0 then Fore(hz) else task.slice
  }

  predicate Ahead(queue: seq<Tid>, t: Tid, p: Tid) {
    queue != [] && queue[0] != t && (queue[0] == p || Ahead(queue[1..], t, p))
  }

  /** The caps of the tasks ahead of `t`. */
  function Wait(hz: nat, queue: seq<Tid>, tasks: Tasks, t: Tid): nat
    requires forall u <- queue :: u in tasks
  {
    if queue == [] || queue[0] == t then 0 else Cap(hz, tasks[queue[0]]) + Wait(hz, queue[1..], tasks, t)
  }

  /** Another task than `t` runs without standing ahead of it. */
  predicate Outside(s: State, t: Tid) {
    s.curr.Some? && s.curr.value != t && !s.resched && !Ahead(s.queue, t, s.curr.value)
  }

  /** What can run before `t`: the tasks ahead of it, and the running one if it is not one of
      these. */
  function Due(hz: nat, s: State, t: Tid): nat
    requires Inv(hz, s)
  {
    Wait(hz, s.queue, s.tasks, t) + if Outside(s, t) then Cap(hz, s.tasks[s.curr.value]) else 0
  }

  lemma {:induction false} WaitAtMost(hz: nat, queue: seq<Tid>, tasks: Tasks, t: Tid, k: nat)
    requires forall u <- queue :: u in tasks && tasks[u].slice <= Fore(hz)
    requires k < |queue| && queue[k] == t
    ensures Wait(hz, queue, tasks, t) <= k * Fore(hz)
  {
    if queue[0] != t {
      WaitAtMost(hz, queue[1..], tasks, t, k - 1);
      assert k * Fore(hz) == (k - 1) * Fore(hz) + Fore(hz);
    } else {
      assert 0 <= k * Fore(hz);
    }
  }

  lemma {:induction false} AheadIsQueued(queue: seq<Tid>, t: Tid, p: Tid)
    ensures Ahead(queue, t, p) ==> p in queue && p != t
  {
    if queue != [] {
      AheadIsQueued(queue[1..], t, p);
    }
  }

  /** A changed entry changes the wait by the change of its cap, if it is ahead. */
  lemma {:induction false} StoreEffect(hz: nat, queue: seq<Tid>, tasks: Tasks, t: Tid, p: Tid, task: Task)
    requires Unique(queue) && (forall u <- queue :: u in tasks) && p in tasks
    ensures forall u <- queue :: u in tasks[p := task]
    ensures Wait(hz, queue, tasks[p := task], t)
         == Wait(hz, queue, tasks, t) + if Ahead(queue, t, p) then Cap(hz, task) - Cap(hz, tasks[p]) else 0
  {
    if queue != [] && queue[0] != t {
      StoreEffect(hz, queue[1..], tasks, t, p, task);
      AheadIsQueued(queue[1..], t, p);
    }
  }

  lemma {:induction false} AppendEffect(hz: nat, queue: seq<Tid>, tasks: Tasks, t: Tid, u: Tid)
    requires (forall v <- queue :: v in tasks) && u in tasks && t in queue
    ensures Wait(hz, queue + [u], tasks, t) == Wait(hz, queue, tasks, t)
    ensures forall p :: Ahead(queue + [u], t, p) <==> Ahead(queue, t, p)
  {
    if queue[0] != t {
      assert (queue + [u])[1..] == queue[1..] + [u];
      AppendEffect(hz, queue[1..], tasks, t, u);
    }
  }

  lemma {:induction false} RemoveEffect(hz: nat, queue: seq<Tid>, tasks: Tasks, t: Tid, u: Tid)
    requires Unique(queue) && (forall v <- queue :: v in tasks) && u != t
    ensures forall v <- Remove(queue, u) :: v in tasks
    ensures Ahead(queue, t, u) ==> u in tasks
    ensures Wait(hz, Remove(queue, u), tasks, t) + (if Ahead(queue, t, u) then Cap(hz, tasks[u]) else 0)
         == Wait(hz, queue, tasks, t)
    ensures forall p | p != u :: Ahead(Remove(queue, u), t, p) <==> Ahead(queue, t, p)
    ensures !Ahead(Remove(queue, u), t, u)
  {
    RemoveMembers(queue, u);
    AheadIsQueued(Remove(queue, u), t, u);
    RemoveKeeps(queue, u);
    if queue != [] && queue[0] != u {
      RemoveEffect(hz, queue[1..], tasks, t, u);
      assert ([queue[0]] + Remove(queue[1..], u))[1..] == Remove(queue[1..], u);
    }
  }

  /** A task other than `t` goes to the tail. */
  lemma ToTailEffect(hz: nat, queue: seq<Tid>, tasks: Tasks, t: Tid, u: Tid)
    requires Unique(queue) && (forall v <- queue :: v in tasks) && u in queue && t in queue && u != t
    ensures var queue' := Remove(queue, u) + [u];
      && (forall v <- queue' :: v in tasks) && t in queue'
      && Wait(hz, queue', tasks, t) + (if Ahead(queue, t, u) then Cap(hz, tasks[u]) else 0) == Wait(hz, queue, tasks, t)
      && (forall p | p != u :: Ahead(queue', t, p) <==> Ahead(queue, t, p))
      && !Ahead(queue', t, u)
  {
    RemoveKeeps(queue, u);
    RemoveEffect(hz, queue, tasks, t, u);
    AppendEffect(hz, Remove(queue, u), tasks, t, u);
  }

  /** A tick that counts: the reschedule that a previous one asked for has happened. */
  predicate Counts(s: State, step: Step) {
    step.Tick? && !s.resched
  }

  /** A running task of another class enters this one, at the tail. */
  predicate EntersRunning(step: Step) {
    step.Enter? && step.running
  }

  /** `t` itself leaves the queue or is moved to the tail by its change. */
  predicate Moves(step: Step, t: Tid) {
    match step
    case Depart(u) => u == t
    case Leave(u, _, _) => u == t
    case Regroup(u, _) => u == t
    case Renice(u, _) => u == t
    case _ => false
  }

  /** One step, while `t` is queued and does not run: what is due before it does not grow,
      unless a running task enters the class, and a counting tick shortens it. */
  lemma StepShortens(hz: nat, s: State, step: Step, t: Tid)
    requires hz >= 100 && Inv(hz, s) && Enabled(s, step)
    requires t in s.queue && s.curr != Some(t) && !Moves(step, t)
    ensures Inv(hz, Next(hz, s, step)) && t in Next(hz, s, step).queue
    ensures Due(hz, Next(hz, s, step), t) + (if Counts(s, step) then 1 else 0)
            <= Due(hz, s, t) + if EntersRunning(step) then Fore(hz) else 0
  {
    NextKeeps(hz, s, step);
    hide Unique, Remove, Ahead, Wait, TaskTick;
    match step
    case Arrive(u) => AppendEffect(hz, s.queue, s.tasks, t, u);
    case Depart(u) =>
      RemoveKeeps(s.queue, u);
      RemoveEffect(hz, s.queue, s.tasks, t, u);
    case Enter(u, prio, running) => EnterShortens(hz, s, t, u, prio, running);
    case Leave(u, prio, wrrPolicy) => LeaveShortens(hz, s, t, u, prio, wrrPolicy);
    case Yield => YieldShortens(hz, s, t);
    case Tick => TickShortens(hz, s, t);
    case Schedule(other) => ScheduleShortens(hz, s, t, other);
    case Mark =>
    case Regroup(u, fore) => ReinsertShortens(hz, s, t, u, s.tasks[u].(fore := fore));
    case Renice(u, prio) => ReniceShortens(hz, s, t, u, prio);
  }

  lemma EnterShortens(hz: nat, s: State, t: Tid, u: Tid, prio: int, running: bool)
    requires Inv(hz, s) && Enabled(s, Enter(u, prio, running)) && t in s.queue
    requires Inv(hz, Next(hz, s, Enter(u, prio, running)))
    ensures t in Next(hz, s, Enter(u, prio, running)).queue
    ensures Due(hz, Next(hz, s, Enter(u, prio, running)), t) <= Due(hz, s, t) + if running then Fore(hz) else 0
  {
    var tasks' := s.tasks[u := s.tasks[u].(prio := prio, wrrPolicy := true)];
    AheadIsQueued(s.queue, t, u);
    StoreEffect(hz, s.queue, s.tasks, t, u, tasks'[u]);
    AppendEffect(hz, s.queue, tasks', t, u);
    hide Unique, Ahead, Wait;
  }

  lemma LeaveShortens(hz: nat, s: State, t: Tid, u: Tid, prio: int, wrrPolicy: bool)
    requires Inv(hz, s) && Enabled(s, Leave(u, prio, wrrPolicy)) && t in s.queue && u != t
    requires Inv(hz, Next(hz, s, Leave(u, prio, wrrPolicy)))
    ensures t in Next(hz, s, Leave(u, prio, wrrPolicy)).queue
    ensures Due(hz, Next(hz, s, Leave(u, prio, wrrPolicy)), t) <= Due(hz, s, t)
  {
    RemoveKeeps(s.queue, u);
    RemoveEffect(hz, s.queue, s.tasks, t, u);
    StoreEffect(hz, Remove(s.queue, u), s.tasks, t, u, s.tasks[u].(prio := prio, wrrPolicy := wrrPolicy));
    hide Unique, Ahead, Wait, Remove;
  }

  lemma YieldShortens(hz: nat, s: State, t: Tid)
    requires Inv(hz, s) && s.curr.Some? && t in s.queue && s.curr != Some(t)
    requires Inv(hz, Next(hz, s, Yield))
    ensures t in Next(hz, s, Yield).queue && Due(hz, Next(hz, s, Yield), t) <= Due(hz, s, t)
  {
    var p := s.curr.value;
    if p in s.queue {
      ToTailEffect(hz, s.queue, s.tasks, t, p);
    }
    hide Unique, Ahead, Wait, Remove;
  }

  lemma ScheduleShortens(hz: nat, s: State, t: Tid, other: bool)
    requires Inv(hz, s) && t in s.queue && Inv(hz, Next(hz, s, Schedule(other)))
    ensures Due(hz, Next(hz, s, Schedule(other)), t) <= Due(hz, s, t)
  {
    assert s.queue[0] != t ==> Ahead(s.queue, t, s.queue[0]);
  }

  lemma ReinsertShortens(hz: nat, s: State, t: Tid, u: Tid, task: Task)
    requires Inv(hz, s) && u in s.tasks && t in s.queue && u != t
    requires task.slice == s.tasks[u].slice && Inv(hz, Reinsert(s, u, task))
    ensures t in Reinsert(s, u, task).queue && Due(hz, Reinsert(s, u, task), t) <= Due(hz, s, t)
  {
    ReinsertKeeps(s, u, task);
    if u in s.queue {
      ToTailEffect(hz, s.queue, s.tasks, t, u);
      StoreEffect(hz, Remove(s.queue, u) + [u], s.tasks, t, u, task);
    } else {
      StoreEffect(hz, s.queue, s.tasks, t, u, task);
    }
    hide Unique, Ahead, Wait, Remove, Reinsert;
  }

  lemma ReniceShortens(hz: nat, s: State, t: Tid, u: Tid, prio: int)
    requires Inv(hz, s) && u in s.tasks && t in s.queue && u != t && Inv(hz, Next(hz, s, Renice(u, prio)))
    ensures t in Next(hz, s, Renice(u, prio)).queue && Due(hz, Next(hz, s, Renice(u, prio)), t) <= Due(hz, s, t)
  {
    var task := s.tasks[u].(prio := prio);
    ChangeKeeps(hz, s, u, task);
    ReinsertShortens(hz, s, t, u, task);
    ReinsertKeeps(s, u, task);
    hide Unique, Ahead, Wait, Remove, Reinsert;
  }

  lemma TickShortens(hz: nat, s: State, t: Tid)
    requires hz >= 100 && Inv(hz, s) && s.curr.Some? && t in s.queue && s.curr != Some(t)
    requires Inv(hz, TaskTick(hz, s, s.curr.value))
    ensures var s' := TaskTick(hz, s, s.curr.value);
      && t in s'.queue
      && Due(hz, s', t) + (if s.resched then 0 else 1) <= Due(hz, s, t)
  {
    var p := s.curr.value;
    var task := Aged(hz, s.tasks[p]);
    AheadIsQueued(s.queue, t, p);
    if LastTick(hz, s.tasks[p]) && p in s.queue {
      LastTickShortens(hz, s, t, p);
    } else {
      StoreEffect(hz, s.queue, s.tasks, t, p, task);
      hide Unique, Ahead, Wait, Remove;
    }
  }

  /** The last tick of a slice sends the running task behind `t`. */
  lemma LastTickShortens(hz: nat, s: State, t: Tid, p: Tid)
    requires hz >= 100 && Inv(hz, s) && s.curr == Some(p) && LastTick(hz, s.tasks[p])
    requires t in s.queue && p in s.queue && p != t && Inv(hz, TaskTick(hz, s, p))
    ensures var s' := TaskTick(hz, s, p);
      && t in s'.queue
      && Due(hz, s', t) + (if s.resched then 0 else 1) <= Due(hz, s, t)
  {
    var task := Aged(hz, s.tasks[p]);
    ToTailEffect(hz, s.queue, s.tasks, t, p);
    StoreEffect(hz, Remove(s.queue, p) + [p], s.tasks, t, p, task);
    RequeueKeeps(s, p, false);
    assert |s.queue| > 1;
    hide Unique, Ahead, Wait, Remove;
  }

  function TicksIn(states: seq<State>, steps: seq<Step>, n: nat): nat
    requires n <= |steps| && |states| == |steps| + 1
  {
    if n == 0 then 0 else TicksIn(states, steps, n - 1) + if Counts(states[n - 1], steps[n - 1]) then 1 else 0
  }

  function EntriesIn(steps: seq<Step>, n: nat): nat
    requires n <= |steps|
  {
    if n == 0 then 0 else EntriesIn(steps, n - 1) + if EntersRunning(steps[n - 1]) then 1 else 0
  }

  /** `t` does not run and is not moved in the first `n` steps. */
  predicate Waits(states: seq<State>, steps: seq<Step>, t: Tid, n: nat)
    requires n <= |steps| && |states| == |steps| + 1
  {
    forall k: nat | k < n :: states[k].curr != Some(t) && !Moves(steps[k], t)
  }

  lemma {:induction false} TicksBounded(hz: nat, states: seq<State>, steps: seq<Step>, t: Tid, n: nat)
    requires hz >= 100 && IsRun(hz, states, steps) && Inv(hz, states[0]) && n <= |steps|
    requires t in states[0].queue && Waits(states, steps, t, n)
    ensures Inv(hz, states[n]) && t in states[n].queue
    ensures TicksIn(states, steps, n) + Due(hz, states[n], t) <= Due(hz, states[0], t) + EntriesIn(steps, n) * Fore(hz)
  {
    hide Due, Inv, Next, Enabled, Moves, Fore;
    if n > 0 {
      TicksBounded(hz, states, steps, t, n - 1);
      StepShortens(hz, states[n - 1], steps[n - 1], t);
      MoreSlices(EntriesIn(steps, n - 1), Fore(hz));
    }
  }

  lemma MoreSlices(k: nat, slice: nat)
    ensures (k + 1) * slice == k * slice + slice
  {
  }

  /** The full slices a task at position `k` may have to wait for, after `entries` running
      tasks entered the class. */
  function SlicesDue(s: State, t: Tid, k: nat, entries: nat): nat {
    k + entries + if Outside(s, t) then 1 else 0
  }

  /** Whatever arrives, leaves, yields, changes group, nice value or class meanwhile, a task
      that stays where it is in the queue runs within the ticks of one full foreground slice
      for each task ahead of it, one for a running task that is not ahead, and one for each
      running task that enters the class.  When they are used up, it is at the head and the
      scheduler runs before the next tick counts. */
  lemma BoundedWaiting(hz: nat, states: seq<State>, steps: seq<Step>, t: Tid, k: nat, n: nat)
    requires hz >= 100 && IsRun(hz, states, steps) && Inv(hz, states[0]) && n <= |steps|
    requires k < |states[0].queue| && states[0].queue[k] == t && Waits(states, steps, t, n)
    ensures var most := SlicesDue(states[0], t, k, EntriesIn(steps, n)) * Fore(hz);
      && TicksIn(states, steps, n) <= most
      && Inv(hz, states[n]) && t in states[n].queue
      && (TicksIn(states, steps, n) == most ==> states[n].queue[0] == t && !Outside(states[n], t))
  {
    DueAtMost(hz, states[0], t, k);
    hide Due, Inv, Fore, IsRun, Waits, Outside, TicksIn, EntriesIn;
    TicksBounded(hz, states, steps, t, n);
    DueIsZero(hz, states[n], t);
    SlicesAdd(k + if Outside(states[0], t) then 1 else 0, EntriesIn(steps, n), Fore(hz));
  }

  lemma DueAtMost(hz: nat, s: State, t: Tid, k: nat)
    requires Inv(hz, s) && k < |s.queue| && s.queue[k] == t
    ensures Due(hz, s, t) <= (k + if Outside(s, t) then 1 else 0) * Fore(hz)
  {
    WaitAtMost(hz, s.queue, s.tasks, t, k);
    MoreSlices(k, Fore(hz));
  }

  lemma DueIsZero(hz: nat, s: State, t: Tid)
    requires hz >= 100 && Inv(hz, s) && t in s.queue
    ensures Due(hz, s, t) == 0 <==> s.queue[0] == t && !Outside(s, t)
  {
  }

  lemma SlicesAdd(k: nat, e: nat, slice: nat)
    ensures (k + e) * slice == k * slice + e * slice
  {
  }

  /** At the head it is what the next pick of this class returns, whoever runs now. */
  lemma HeadIsPicked(hz: nat, s: State, t: Tid)
    requires Inv(hz, s) && s.queue != [] && s.queue[0] == t
    ensures Next(hz, s, Schedule(false)).curr == Some(t)
  {
  }

  /** The entries must be counted: while `t` stands at the head, a running task that enters
      the class runs first, and a task of another class may take over after it. */
  lemma EntryOvertakes(hz: nat, s: State, t: Tid, u: Tid, prio: int)
    requires hz >= 100 && Inv(hz, s) && s.queue != [] && s.queue[0] == t && s.curr.None? && !s.resched
    requires u in s.tasks && u !in s.queue
    ensures var s1 := Next(hz, s, Enter(u, prio, true));
      && Enabled(s, Enter(u, prio, true)) && s1.queue[0] == t && s1.curr == Some(u)
      && Counts(s1, Tick) && Enabled(s1, Leave(u, prio, false))
      && Next(hz, s1, Leave(u, prio, false)).queue == s.queue && Next(hz, s1, Leave(u, prio, false)).curr.None?
  {
    RemoveLast(s.queue, u);
  }

  lemma {:induction false} RemoveLast(queue: seq<Tid>, u: Tid)
    requires u !in queue
    ensures Remove(queue + [u], u) == queue
  {
    if queue != [] {
      assert (queue + [u])[1..] == queue[1..] + [u];
      RemoveLast(queue[1..], u);
    }
  }

  // ---------------------------------------------------------------------------
  // rotation
  // ---------------------------------------------------------------------------

  /** A tick, and the reschedule it may ask for. */
  function TickAndSwitch(hz: nat, s: State): State
    requires Inv(hz, s) && s.curr.Some?
  {
    var s' := TaskTick(hz, s, s.curr.value);
    if s'.resched then Next(hz, s', Schedule(false)) else s'
  }

  /** The slice left to a task, in ticks. */
  function Left(hz: nat, task: Task): nat {
    if task.slice == 0 then Full(hz, task) else task.slice
  }

  /** The head runs and nothing is pending. */
  predicate Running(hz: nat, s: State) {
    Inv(hz, s) && HeadRuns(s) && s.curr.Some? && !s.resched
  }

  lemma TickKeepsRunning(hz: nat, s: State)
    requires hz >= 100 && Running(hz, s)
    ensures Running(hz, TickAndSwitch(hz, s))
  {
    NextKeeps(hz, s, Tick);
    RequeueKeeps(s, s.curr.value, false);
  }

  /** From `s` the tasks of `ran` run for a tick each, in this order, and lead to `s'`. */
  predicate Leads(hz: nat, s: State, ran: seq<Tid>, s': State)
    requires hz >= 100 && Running(hz, s)
    decreases |ran|
  {
    if ran == [] then s' == s
    else
      TickKeepsRunning(hz, s);
      s.curr.value == ran[0] && Leads(hz, TickAndSwitch(hz, s), ran[1..], s')
  }

  lemma {:induction false} LeadsOn(hz: nat, s: State, ran: seq<Tid>, s1: State, more: seq<Tid>, s2: State)
    requires hz >= 100 && Running(hz, s) && Running(hz, s1)
    requires Leads(hz, s, ran, s1) && Leads(hz, s1, more, s2)
    ensures Leads(hz, s, ran + more, s2)
    decreases |ran|
  {
    hide Inv, HeadRuns, TickAndSwitch;
    if ran == [] {
      assert ran + more == more;
    } else {
      TickKeepsRunning(hz, s);
      LeadsOn(hz, TickAndSwitch(hz, s), ran[1..], s1, more, s2);
      assert (ran + more)[1..] == ran[1..] + more;
    }
  }

  function Repeat(t: Tid, n: nat): (r: seq<Tid>)
    ensures |r| == n
  {
    seq(n, _ => t)
  }

  /** The tasks of `queue` in order, each for the slice it has left. */
  function Turns(hz: nat, queue: seq<Tid>, tasks: Tasks): seq<Tid>
    requires forall u <- queue :: u in tasks
  {
    if queue == [] then [] else Repeat(queue[0], Left(hz, tasks[queue[0]])) + Turns(hz, queue[1..], tasks)
  }

  /** What a whole turn leaves of a task: a full slice, and a priority that went up with
      every tick but the last. */
  function Rested(hz: nat, task: Task): Task {
    task.(slice := Full(hz, task),
          prio := if Left(hz, task) <= 1 then task.prio
                  else if task.prio + Left(hz, task) - 1 > MAX_PRIO then MAX_PRIO
                  else task.prio + Left(hz, task) - 1)
  }

  /** One turn: the head runs for exactly the slice it has left and ends up at the tail. */
  lemma {:induction false} Turn(hz: nat, s: State) returns (s': State)
    requires hz >= 100 && Running(hz, s)
    ensures var h := s.queue[0];
      && Leads(hz, s, Repeat(h, Left(hz, s.tasks[h])), s') && Running(hz, s')
      && s'.queue == s.queue[1..] + [h] && s'.tasks == s.tasks[h := Rested(hz, s.tasks[h])]
    decreases Left(hz, s.tasks[s.queue[0]])
  {
    var h := s.queue[0];
    var n := Left(hz, s.tasks[h]);
    var s1 := TickAndSwitch(hz, s);
    TickKeepsRunning(hz, s);
    assert Repeat(h, n)[1..] == Repeat(h, n - 1);
    if n == 1 {
      LastTickRotates(hz, s);
      s' := s1;
    } else {
      EarlyTick(hz, s);
      RestedLater(hz, s.tasks[h]);
      hide Inv, HeadRuns, TickAndSwitch, Rested, Aged, Left, Unique;
      s' := Turn(hz, s1);
      assert s.tasks[h := Aged(hz, s.tasks[h])][h := Rested(hz, s.tasks[h])] == s.tasks[h := Rested(hz, s.tasks[h])];
    }
  }

  lemma EarlyTick(hz: nat, s: State)
    requires hz >= 100 && Running(hz, s) && Left(hz, s.tasks[s.queue[0]]) > 1
    ensures var h := s.queue[0];
      var s' := TickAndSwitch(hz, s);
      && s'.queue == s.queue && s'.tasks == s.tasks[h := Aged(hz, s.tasks[h])]
      && Left(hz, s'.tasks[h]) == Left(hz, s.tasks[h]) - 1
  {
  }

  lemma RestedLater(hz: nat, task: Task)
    requires hz >= 100 && Left(hz, task) > 1
    ensures Rested(hz, Aged(hz, task)) == Rested(hz, task)
  {
  }

  lemma LastTickRotates(hz: nat, s: State)
    requires hz >= 100 && Running(hz, s) && Left(hz, s.tasks[s.queue[0]]) == 1
    ensures var s' := TickAndSwitch(hz, s);
      && s'.queue == s.queue[1..] + [s.queue[0]]
      && s'.tasks == s.tasks[s.queue[0] := Rested(hz, s.tasks[s.queue[0]])]
  {
  }

  /** Midway through a rotation of `tasks`: `front` is still to run, `back` has run. */
  predicate Midway(hz: nat, s: State, front: seq<Tid>, back: seq<Tid>, tasks: Tasks) {
    && s.queue == front + back && s.queue != [] && s.tasks.Keys == tasks.Keys
    && (forall u <- front :: u in tasks) && (forall u <- back :: u in tasks)
    && forall u <- tasks :: s.tasks[u] == if u in back then Rested(hz, tasks[u]) else tasks[u]
  }

  lemma MidwayTurn(hz: nat, s: State, s': State, front: seq<Tid>, back: seq<Tid>, tasks: Tasks)
    requires Unique(s.queue) && Midway(hz, s, front, back, tasks) && front != []
    requires s'.queue == s.queue[1..] + [front[0]]
    requires s'.tasks == s.tasks[front[0] := Rested(hz, s.tasks[front[0]])]
    ensures s.queue[0] == front[0] && s.tasks[front[0]] == tasks[front[0]]
    ensures Midway(hz, s', front[1..], back + [front[0]], tasks)
  {
    FrontSplits(s.queue, front, back);
    assert s.queue[1..] + [front[0]] == front[1..] + (back + [front[0]]);
  }

  /** From there the tasks of `front` take their turns. */
  lemma {:induction false} TurnsFrom(hz: nat, s: State, front: seq<Tid>, back: seq<Tid>, tasks: Tasks) returns (s': State)
    requires hz >= 100 && Running(hz, s) && Midway(hz, s, front, back, tasks)
    ensures forall u <- front :: u in tasks
    ensures Leads(hz, s, Turns(hz, front, tasks), s') && Running(hz, s')
    ensures Midway(hz, s', [], back + front, tasks)
    decreases |front|
  {
    if front == [] {
      assert back + front == front + back == back;
      s' := s;
    } else {
      var s1 := Turn(hz, s);
      MidwayTurn(hz, s, s1, front, back, tasks);
      hide Running, Leads, Midway, Rested, Left;
      s' := TurnsFrom(hz, s1, front[1..], back + [front[0]], tasks);
      Rejoin(front, back);
      LeadsOn(hz, s, Repeat(front[0], Left(hz, tasks[front[0]])), s1, Turns(hz, front[1..], tasks), s');
    }
  }

  lemma Rejoin(front: seq<Tid>, back: seq<Tid>)
    requires front != []
    ensures (back + [front[0]]) + front[1..] == back + front
  {
  }

  lemma FrontSplits(queue: seq<Tid>, front: seq<Tid>, back: seq<Tid>)
    requires Unique(queue) && queue == front + back && front != []
    ensures front[0] !in front[1..] && front[0] !in back
    ensures forall u :: u in front <==> u == front[0] || u in front[1..]
    ensures forall u :: u in back + [front[0]] <==> u in back || u == front[0]
    ensures forall u :: u in front + back <==> u in front[1..] + (back + [front[0]])
  {
    assert front == [front[0]] + front[1..];
    assert forall i: nat | i < |front| :: queue[i] == front[i];
    assert forall i: nat | i < |back| :: queue[|front| + i] == back[i];
  }

  /** A full rotation by ticks alone: every task runs, in queue order, for exactly the slice
      it held; the order is as before and all slices are full. */
  lemma Rotation(hz: nat, s: State) returns (s': State)
    requires hz >= 100 && Running(hz, s)
    ensures Leads(hz, s, Turns(hz, s.queue, s.tasks), s') && Running(hz, s')
    ensures s'.queue == s.queue && s'.curr == s.curr && s'.tasks.Keys == s.tasks.Keys
    ensures forall u <- s.tasks :: s'.tasks[u] == if u in s.queue then Rested(hz, s.tasks[u]) else s.tasks[u]
  {
    assert s.queue + [] == s.queue && [] + s.queue == s.queue;
    s' := TurnsFrom(hz, s, s.queue, [], s.tasks);
  }

  /** How many of the ticks in `ran` are those of `u`. */
  function Ticks(ran: seq<Tid>, u: Tid): nat {
    multiset(ran)[u]
  }

  lemma {:induction false} TicksInTurns(hz: nat, queue: seq<Tid>, tasks: Tasks, u: Tid)
    requires Unique(queue) && forall v <- queue :: v in tasks
    ensures Ticks(Turns(hz, queue, tasks), u) == if u in queue then Left(hz, tasks[u]) else 0
  {
    hide Left;
    if queue != [] {
      assert queue == [queue[0]] + queue[1..] && queue[0] !in queue[1..];
      TicksInTurns(hz, queue[1..], tasks, u);
      TicksOfOne(queue[0], Left(hz, tasks[queue[0]]), u);
    }
  }

  lemma {:induction false} TicksOfOne(t: Tid, n: nat, u: Tid)
    ensures Ticks(Repeat(t, n), u) == if t == u then n else 0
  {
    if n > 0 {
      TicksOfOne(t, n - 1, u);
      assert Repeat(t, n) == [t] + Repeat(t, n - 1);
    }
  }

  /** The weights: from the second rotation on a task of the root group runs for a tenth of a
      second in each and any other for a hundredth, so ten times as long where a hundredth is
      a whole number of ticks, and in general as nearly so as whole ticks allow. */
  lemma RotationWeights(hz: nat, s: State) returns (s1: State, ran: seq<Tid>, s2: State)
    requires hz >= 100 && Running(hz, s)
    ensures Leads(hz, s, Turns(hz, s.queue, s.tasks), s1) && Running(hz, s1) && Leads(hz, s1, ran, s2)
    ensures s1.queue == s.queue == s2.queue
    ensures forall u <- s.queue :: u in s.tasks && Ticks(ran, u) == if s.tasks[u].fore then hz / 10 else hz / 100
    ensures forall u <- s.queue, v <- s.queue | s.tasks[u].fore && !s.tasks[v].fore ::
      10 * Ticks(ran, v) <= Ticks(ran, u) < 10 * Ticks(ran, v) + 10
      && (hz % 100 == 0 ==> Ticks(ran, u) == 10 * Ticks(ran, v))
  {
    s1 := Rotation(hz, s);
    ran := Turns(hz, s1.queue, s1.tasks);
    s2 := Rotation(hz, s1);
    forall u <- s.queue
      ensures u in s.tasks && Ticks(ran, u) == if s.tasks[u].fore then hz / 10 else hz / 100
    {
      TicksInTurns(hz, s1.queue, s1.tasks, u);
      FullIs(hz, s.tasks[u]);
    }
    hide Leads, Running, Turns, Ticks;
  }

  /** A hundred and ten milliseconds. */
  lemma FullIs(hz: nat, task: Task)
    ensures Full(hz, task) == if task.fore then hz / 10 else hz / 100
  {
  }

  // ---------------------------------------------------------------------------
  // the code
  // ---------------------------------------------------------------------------

  class WrrRq {
    const hz: nat
    var queue: seq<Tid>
    var nrRunning: nat
    var tasks: Tasks
    var curr: Option<Tid>
    var resched: bool

    ghost function Abs(): State
      reads this
    {
      State(queue, nrRunning, tasks, curr, resched)
    }

    ghost predicate Valid()
      reads this
    {
      hz >= 100 && Inv(hz, Abs())
    }

    /** `init_wrr_rq`, over a table whose slices are no longer than a foreground slice. */
    constructor (hz: nat, tasks: Tasks)
      requires hz >= 100 && forall t <- tasks :: tasks[t].slice <= Fore(hz)
      ensures Valid() && this.hz == hz && Abs() == State([], 0, tasks, None, false)
    {
      this.hz, this.tasks := hz, tasks;
      queue, nrRunning, curr, resched := [], 0, None, false;
    }

    /** The assertion is the source's WARN_ON. */
    method DequeueWrrStack(t: Tid)
      requires Unique(queue) && nrRunning == |queue|
      modifies this`queue, this`nrRunning
      ensures Abs() == DequeueTask(old(Abs()), t)
      ensures Unique(queue) && nrRunning == |queue| && forall u :: u in queue <==> u in old(queue) && u != t
    {
      RemoveKeeps(queue, t);
      RemoveShortens(queue, t);
      if t in queue {
        assert nrRunning != 0;
        queue := Remove(queue, t);
        nrRunning := nrRunning - 1;
      }
    }

    method EnqueueTaskWrr(t: Tid, head: bool)
      requires Unique(queue) && nrRunning == |queue|
      modifies this`queue, this`nrRunning
      ensures Abs() == EnqueueTask(old(Abs()), t, head)
      ensures Unique(queue) && nrRunning == |queue| && forall u :: u in queue <==> u in old(queue) || u == t
    {
      DequeueWrrStack(t);
      AddToKeeps(queue, t, head);
      queue := if head then [t] + queue else queue + [t];
      nrRunning := nrRunning + 1;
    }

    method DequeueTaskWrr(t: Tid)
      requires Valid()
      modifies this`queue, this`nrRunning, this`resched
      ensures Valid()
      ensures Abs() == DequeueTask(old(Abs()), t).(resched := old(resched) || (t in old(queue) && old(curr) == Some(t)))
    {
      if t in queue && curr == Some(t) {
        resched := true;
      }
      DequeueWrrStack(t);
    }

    method RequeueTaskWrr(t: Tid, head: bool)
      requires Unique(queue)
      modifies this`queue
      ensures Abs() == RequeueTask(old(Abs()), t, head)
      ensures Unique(queue) && |queue| == |old(queue)| && forall u :: u in queue <==> u in old(queue)
    {
      RequeueKeeps(Abs(), t, head);
      if t in queue {
        queue := if head then [t] + Remove(queue, t) else Remove(queue, t) + [t];
      }
    }

    method YieldTaskWrr()
      requires Valid() && curr.Some?
      modifies this`queue, this`resched
      ensures Valid() && Abs() == Next(hz, old(Abs()), Yield)
    {
      RequeueTaskWrr(curr.value, false);
      resched := true;
    }

    method WakeUp(t: Tid)
      requires Valid() && Enabled(Abs(), Arrive(t))
      modifies this`queue, this`nrRunning
      ensures Valid() && Abs() == Next(hz, old(Abs()), Arrive(t))
    {
      EnqueueTaskWrr(t, false);
    }

    /** `sched_move_task`; whether the task is running makes no difference to this class. */
    method SchedMoveTask(t: Tid, fore: bool)
      requires Valid() && t in tasks
      modifies this`queue, this`nrRunning, this`tasks
      ensures Valid() && Abs() == Next(hz, old(Abs()), Regroup(t, fore))
    {
      NextKeeps(hz, Abs(), Regroup(t, fore));
      hide Inv, RequeueTask;
      ChangeEntry(t, tasks[t].(fore := fore));
    }

    /** `set_user_nice` for a new nice value; `prio` is what `effective_prio` returns.  It is the
      old priority when ageing has brought the task there already, or under a boost. */
    method SetUserNice(t: Tid, prio: int)
      requires Valid() && t in tasks
      modifies this`queue, this`nrRunning, this`tasks, this`resched
      ensures Valid() && Abs() == Next(hz, old(Abs()), Renice(t, prio))
    {
      NextKeeps(hz, Abs(), Renice(t, prio));
      hide Inv, RequeueTask;
      var onRq, delta := t in queue, prio - tasks[t].prio;
      ChangeEntry(t, tasks[t].(prio := prio));
      if onRq && (delta < 0 || (delta > 0 && curr == Some(t))) {
        resched := true;
      }
    }

    method ChangeEntry(t: Tid, task: Task)
      requires Valid() && t in tasks
      modifies this`queue, this`nrRunning, this`tasks
      ensures Abs() == Reinsert(old(Abs()), t, task)
    {
      var onRq := t in queue;
      if onRq {
        DequeueWrrStack(t);
      }
      tasks := tasks[t := task];
      if onRq {
        EnqueueTaskWrr(t, false);
      }
    }

    /** A change of class towards this one: `set_curr_task` if the task is running, then the
        enqueue. */
    method EnterClass(t: Tid, prio: int, running: bool)
      requires Valid() && Enabled(Abs(), Enter(t, prio, running))
      modifies this`queue, this`nrRunning, this`tasks, this`curr
      ensures Valid() && Abs() == Next(hz, old(Abs()), Enter(t, prio, running))
    {
      NextKeeps(hz, Abs(), Enter(t, prio, running));
      tasks := tasks[t := tasks[t].(prio := prio, wrrPolicy := true)];
      if running {
        curr := Some(t);
      }
      EnqueueTaskWrr(t, false);
    }

    /** A change of class away from this one, by policy or by inheritance. */
    method LeaveClass(t: Tid, prio: int, wrrPolicy: bool)
      requires Valid() && t in queue
      modifies this`queue, this`nrRunning, this`tasks, this`curr
      ensures Valid() && Abs() == Next(hz, old(Abs()), Leave(t, prio, wrrPolicy))
    {
      NextKeeps(hz, Abs(), Leave(t, prio, wrrPolicy));
      DequeueWrrStack(t);
      tasks := tasks[t := tasks[t].(prio := prio, wrrPolicy := wrrPolicy)];
      if curr == Some(t) {
        curr := None;
      }
    }

    method PickNextTaskWrr() returns (next: Option<Tid>)
      requires Valid()
      ensures next.None? <==> queue == []
      ensures next.Some? ==> next.value == queue[0] && next.value in tasks
    {
      if nrRunning == 0 {
        return None;
      }
      next := Some(queue[0]);
    }

    /** The part of `__schedule` that concerns this class. */
    method Switch(other: bool)
      requires Valid()
      modifies this`curr, this`resched
      ensures Valid() && Abs() == Next(hz, old(Abs()), Schedule(other))
    {
      curr := None;
      if !other {
        curr := PickNextTaskWrr();
      }
      resched := false;
    }

    /** The slice and priority part of `task_tick_wrr`. */
    method AgeTask(p: Tid) returns (used: bool)
      requires hz >= 100 && p in tasks
      modifies this`tasks
      ensures tasks == old(tasks)[p := Aged(hz, old(tasks)[p])] && used == LastTick(hz, old(tasks)[p])
    {
      var task := tasks[p];
      if task.slice == 0 {
        task := task.(slice := if task.fore then Fore(hz) else Back(hz));
      }
      task := task.(slice := task.slice - 1);
      used := task.slice == 0;
      if !used {
        task := task.(prio := task.prio + 1);
        if task.prio > MAX_PRIO {
          task := task.(prio := MAX_PRIO);
        }
      } else {
        task := task.(slice := if task.fore then Fore(hz) else Back(hz));
      }
      tasks := tasks[p := task];
    }

    /** `task_tick_wrr`.  Comparing the neighbours in the ring is the source's way of asking
        for another queued task. */
    method TaskTickWrr()
      requires Valid() && curr.Some?
      modifies this`queue, this`tasks, this`resched
      ensures Valid() && Abs() == Next(hz, old(Abs()), Tick)
    {
      var p := curr.value;
      TickKeeps(hz, Abs(), p);
      hide Aged, LastTick, RequeueTask;
      if !tasks[p].wrrPolicy {
        return;
      }
      var used := AgeTask(p);
      if !used {
        return;
      }
      var shared := HasOthers(p);
      if shared {
        RequeueTaskWrr(p, false);
        resched := true;
      }
    }

    /** `run_list.prev != run_list.next`; an entry that is on no list points to itself. */
    method HasOthers(p: Tid) returns (differ: bool)
      requires Unique(queue)
      ensures differ <==> p in queue && |queue| > 1
    {
      var k: nat := 0;
      while k < |queue| && queue[k] != p
        invariant k <= |queue| && forall j: nat | j < k :: queue[j] != p
      {
        k := k + 1;
      }
      if k == |queue| {
        return false;
      }
      NeighboursDiffer(queue, k);
      var ring := Ring(queue);
      differ := ring[k] != ring[if k + 2 == |queue| + 1 then 0 else k + 2];
    }
  }
}
