/** What the operations of `ClassSwitch` achieve: which requests are granted and what they
    change, who is picked afterwards, and what a later operation undoes. */
module ClassEffects {
  import opened TaskLists
  import opened ClassSwitch

  function AskedPolicy(task: Task, r: Request): int {
    if r.policy < 0 then task.policy else r.policy
  }

  /** The combinations that exist: real-time priorities 1 to 99 with the two real-time policies,
      any from 0 to 99 with policy 6, and 0 with the others. */
  predicate Sensible(policy: int, rtPriority: int) {
    match policy
    case 1 => 1 <= rtPriority <= 99
    case 2 => 1 <= rtPriority <= 99
    case 6 => 0 <= rtPriority <= 99
    case 0 => rtPriority == 0
    case 3 => rtPriority == 0
    case 5 => rtPriority == 0
    case _ => false
  }

  /** A request is granted exactly when it is sensible and permitted; what is not sensible is
      refused as invalid, permitted or not. */
  lemma RequestGrantedIff(task: Task, r: Request)
    requires TaskOk(task)
    ensures var sensible := Sensible(AskedPolicy(task, r), r.rtPriority);
      && (Refusal(task, r) == Success <==> sensible && r.permitted)
      && (Refusal(task, r) == NotPermitted <==> sensible && !r.permitted)
  {
  }

  predicate Unboosted(task: Task) {
    task.prio == task.normalPrio
  }

  /** A granted request is in force, and touches nobody else. */
  lemma GrantInForce(s: State, t: Tid, r: Request, pi: int)
    requires Inv(s) && t in s.tasks && 0 <= pi && Refusal(s.tasks[t], r) == Success
    ensures var (was, s') := (s.tasks[t], SetScheduler(s, t, r, pi));
      && t in s'.tasks && s'.tasks == s.tasks[t := s'.tasks[t]]
      && var now := s'.tasks[t];
         && now.policy == AskedPolicy(was, r)
         && (RtPolicy(now.policy) ==> now.rtPriority == r.rtPriority && now.cls == RtClass)
         && (!RtPolicy(now.policy) && now.cls == RtClass ==> now.prio < MAX_RT_PRIO <= now.normalPrio)
         && now.staticPrio == was.staticPrio && now.onRq == was.onRq
         && (pi >= MAX_PRIO && Unboosted(was) ==> Unboosted(now))
  {
    if SetScheduler(s, t, r, pi) != s {
      ChangeEntry(s, t, Rescheduled(s.tasks[t], AskedPolicy(s.tasks[t], r), r.rtPriority,
                                    if r.policy < 0 then s.tasks[t].resetOnFork else r.reset, pi), false);
    }
    assert TaskOk(s.tasks[t]);
    hide Linked, Change;
  }

  /** The flag that resets a child takes effect exactly if it is there already or something
      else changes too: a request for it alone is granted and lost. */
  lemma ResetTakesIff(s: State, t: Tid, r: Request, pi: int)
    requires Inv(s) && t in s.tasks && 0 <= pi && Refusal(s.tasks[t], r) == Success && r.policy >= 0
    ensures var (was, s') := (s.tasks[t], SetScheduler(s, t, r, pi));
      t in s'.tasks
      && (s'.tasks[t].resetOnFork == r.reset <==>
            was.resetOnFork == r.reset || r.policy != was.policy || (RtPolicy(was.policy) && r.rtPriority != was.rtPriority))
  {
    ChangeEntry(s, t, Rescheduled(s.tasks[t], r.policy, r.rtPriority, r.reset, pi), false);
    hide Linked, Change;
  }

  /** Of two queued real-time tasks without boosts the one with the lower rt_priority is not
      picked. */
  lemma HigherRtPriorityFirst(s: State, u: Tid, v: Tid, choose: set<Tid> -> Tid)
    requires Inv(s) && forall f: set<Tid> :: f != {} ==> choose(f) in f
    requires u in OnRq(s) && v in OnRq(s)
    requires RtPolicy(s.tasks[u].policy) && RtPolicy(s.tasks[v].policy) && Unboosted(s.tasks[u]) && Unboosted(s.tasks[v])
    requires s.tasks[u].rtPriority > s.tasks[v].rtPriority
    ensures PickNext(s, choose) != Picked(v)
  {
    PickRespectsClasses(s, choose);
    assert TaskOk(s.tasks[u]) && TaskOk(s.tasks[v]);
    assert u in InClass(s.tasks, OnRq(s), RtClass) && v in InClass(s.tasks, OnRq(s), RtClass);
    assert v !in InClass(s.tasks, OnRq(s), FairClass) && v !in InClass(s.tasks, OnRq(s), WrrClass);
    hide Linked, PickNext, TaskOk;
  }

  /** So two granted requests order their tasks: whoever asked for more goes first. */
  lemma GrantedOrder(s: State, u: Tid, ru: Request, v: Tid, rv: Request, choose: set<Tid> -> Tid)
    requires Inv(s) && u in OnRq(s) && v in OnRq(s) && u != v && forall f: set<Tid> :: f != {} ==> choose(f) in f
    requires Unboosted(s.tasks[u]) && Unboosted(s.tasks[v])
    requires RtPolicy(ru.policy) && RtPolicy(rv.policy) && ru.rtPriority > rv.rtPriority
    requires Refusal(s.tasks[u], ru) == Success && Refusal(s.tasks[v], rv) == Success
    ensures var s1 := SetScheduler(s, u, ru, MAX_PRIO);
      v in s1.tasks && PickNext(SetScheduler(s1, v, rv, MAX_PRIO), choose) != Picked(v)
  {
    GrantInForce(s, u, ru, MAX_PRIO);
    RescheduleKeeps(s, u, ru, MAX_PRIO);
    var s1 := SetScheduler(s, u, ru, MAX_PRIO);
    assert s1.tasks[v] == s.tasks[v];
    GrantInForce(s1, v, rv, MAX_PRIO);
    RescheduleKeeps(s1, v, rv, MAX_PRIO);
    hide Inv, PickNext, SetScheduler, Refusal;
    HigherRtPriorityFirst(SetScheduler(s1, v, rv, MAX_PRIO), u, v, choose);
  }

  // ---------------------------------------------------------------------------
  // nice values
  // ---------------------------------------------------------------------------

  /** A nice value in range, counted from 120, is the task's static priority; its priority too
      unless it is real-time, boosted, or had that nice value.  Out of range nothing happens. */
  lemma ReniceMeans(s: State, t: Tid, nice: int)
    requires Inv(s) && t in s.tasks
    ensures nice < -20 || nice > 19 ==> SetUserNice(s, t, nice) == s
    ensures -20 <= nice <= 19 ==>
      var (was, s') := (s.tasks[t], SetUserNice(s, t, nice));
      && t in s'.tasks && s'.tasks == s.tasks[t := s'.tasks[t]]
      && s'.tasks[t].staticPrio == 120 + nice && s'.tasks[t].cls == was.cls && s'.tasks[t].policy == was.policy
      && s'.tasks[t].prio == if RtPolicy(was.policy) || was.prio < MAX_RT_PRIO || was.staticPrio == 120 + nice
                             then was.prio else 120 + nice
  {
    ChangeEntry(s, t, Reniced(s.tasks[t], MAX_RT_PRIO + nice + 20), false);
    hide Linked, Change;
  }

  // ---------------------------------------------------------------------------
  // priority inheritance
  // ---------------------------------------------------------------------------

  lemma InheritEntry(s: State, t: Tid, pi: int)
    requires Inv(s) && t in s.tasks && 0 <= pi
    ensures var (was, s') := (s.tasks[t], Next(s, Inherit(t, pi)));
      var prio := if pi < was.normalPrio then pi else was.normalPrio;
      Inv(s') && s'.tasks == s.tasks[t := was.(prio := prio, cls := if prio < 100 then RtClass else FairClass)]
  {
    NextKeeps(s, Inherit(t, pi));
    ChangeEntry(s, t, Boosted(s.tasks[t], Min(s.tasks[t].normalPrio, pi)), s.tasks[t].prio < Min(s.tasks[t].normalPrio, pi));
    hide Inv, Change;
  }

  /** A queued task that inherits a priority better than any other's in the real-time class is
      picked next, whatever its own class. */
  lemma InheritorIsPicked(s: State, t: Tid, pi: int, choose: set<Tid> -> Tid)
    requires Inv(s) && t in OnRq(s) && 0 <= pi < MAX_RT_PRIO && !s.rtThrottled
    requires forall f: set<Tid> :: f != {} ==> choose(f) in f
    requires forall u <- OnRq(s) | u != t && s.tasks[u].cls == RtClass :: pi < s.tasks[u].prio
    ensures PickNext(Next(s, Inherit(t, pi)), choose) == Picked(t)
  {
    var s' := Next(s, Inherit(t, pi));
    hide Inv, PickNext, Next, OnRq;
    InheritEntry(s, t, pi);
    InheritThrottle(s, t, pi);
    SameOnRq(s, t, s');
    BestIsPicked(s', t, choose);
  }

  lemma SameOnRq(s: State, t: Tid, s': State)
    requires t in s.tasks && t in s'.tasks && s'.tasks == s.tasks[t := s'.tasks[t]] && s'.tasks[t].onRq == s.tasks[t].onRq
    ensures OnRq(s') == OnRq(s) && forall u <- OnRq(s) :: u in s.tasks
  {
  }

  lemma BestIsPicked(s: State, t: Tid, choose: set<Tid> -> Tid)
    requires Inv(s) && t in OnRq(s) && s.tasks[t].cls == RtClass && !s.rtThrottled
    requires forall f: set<Tid> :: f != {} ==> choose(f) in f
    requires forall u <- OnRq(s) | u != t && s.tasks[u].cls == RtClass :: s.tasks[t].prio < s.tasks[u].prio
    ensures PickNext(s, choose) == Picked(t)
  {
    hide Inv, PickNext;
    PickRespectsClasses(s, choose);
    assert t in InClass(s.tasks, OnRq(s), RtClass);
  }

  lemma InheritThrottle(s: State, t: Tid, pi: int)
    requires t in s.tasks && 0 <= pi
    ensures Next(s, Inherit(t, pi)).rtThrottled == s.rtThrottled
  {
  }

  /** Inheriting and then losing the last waiter restores the task exactly unless it was of the
      wrr class, which it then has lost. */
  lemma BoostUndoneIff(s: State, t: Tid, pi: int)
    requires Inv(s) && t in s.tasks && 0 <= pi && Unboosted(s.tasks[t])
    ensures var s1 := Next(s, Inherit(t, pi));
      t in s1.tasks && t in Next(s1, Inherit(t, MAX_PRIO)).tasks
      && (Next(s1, Inherit(t, MAX_PRIO)).tasks[t] == s.tasks[t] <==> s.tasks[t].cls != WrrClass)
  {
    InheritEntry(s, t, pi);
    InheritEntry(Next(s, Inherit(t, pi)), t, MAX_PRIO);
    assert TaskOk(s.tasks[t]);
    hide Linked, Next;
  }

  /** A task whose priority gets worse goes to the front of its new level, so that losing a
      boost does not cost it its turn; otherwise it goes to the back. */
  lemma InheritPlaces(s: State, t: Tid, pi: int)
    requires Inv(s) && t in OnRq(s) && 0 <= pi
    ensures var (was, now, s') := (s.tasks[t].prio, Min(s.tasks[t].normalPrio, pi), Next(s, Inherit(t, pi)));
      0 <= now < MAX_RT_PRIO ==>
        && |s.rt| == |s'.rt| == MAX_RT_PRIO
        && var rest := Remove(s.rt[now], t);
           s'.rt[now] == if was < now then [t] + rest else rest + [t]
  {
    var now := Min(s.tasks[t].normalPrio, pi);
    if 0 <= now < MAX_RT_PRIO && !(s.tasks[t].cls == RtClass && s.tasks[t].prio == now) {
      assert !AtLevel(s.tasks, OnRq(s), t, now);
      RemoveKeeps(s.rt[now], t);
    }
    hide Remove, Unique;
  }

  // ---------------------------------------------------------------------------
  // wake-up and fork
  // ---------------------------------------------------------------------------

  /** A task that wakes joins the tail of the queue of its class and level; one that is on a
      queue stays where it is. */
  lemma WakePlaces(s: State, t: Tid)
    requires Inv(s) && t in s.tasks
    ensures var (task, s') := (s.tasks[t], WakeUp(s, t));
      && t in OnRq(s')
      && (task.onRq ==> s' == s)
      && (!task.onRq && task.cls == WrrClass ==> s'.wrr == s.wrr + [t])
      && (!task.onRq && task.cls == FairClass ==> s'.fair == s.fair + {t})
      && (!task.onRq && task.cls == RtClass ==>
            0 <= task.prio < |s.rt| == |s'.rt| && s'.rt[task.prio] == s.rt[task.prio] + [t])
  {
    assert TaskOk(s.tasks[t]);
  }

  /** A child does not inherit a boost; with the reset flag it is an ordinary fair task of nice 0
      or more, and the flag is gone. */
  lemma ChildMeans(parent: Task)
    requires TaskOk(parent)
    ensures var child := Child(parent);
      && !child.onRq && Unboosted(child)
      && (!parent.resetOnFork ==>
            child == parent.(onRq := false, prio := parent.normalPrio,
                             cls := if parent.normalPrio < 100 then parent.cls else FairClass))
      && (parent.resetOnFork ==>
            && !child.resetOnFork && !RtPolicy(child.policy) && child.cls == FairClass
            && child.staticPrio == child.prio >= 120
            && (!RtPolicy(parent.policy) ==> child.policy == parent.policy)
            && (!RtPolicy(parent.policy) && parent.staticPrio >= 120 ==> child.staticPrio == parent.staticPrio))
  {
  }
}
