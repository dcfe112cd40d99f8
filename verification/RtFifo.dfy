/** The order of the tasks at one real-time level: who joins at the tail runs after everybody
    that is queued there, over whole runs. */
module RtFifo {
  import opened TaskLists
  import opened RtModel

  // ---------------------------------------------------------------------------
  // one level of one queue
  // ---------------------------------------------------------------------------

  /** `now` is `was` after `t` joined at one end: the others keep their order. */
  ghost predicate Joined(was: seq<Tid>, now: seq<Tid>, t: Tid, head: bool) {
    && (t !in was ==> now == if head then [t] + was else was + [t])
    && now != [] && t == (if head then now[0] else now[|now| - 1])
    && (forall u :: u in now <==> u in was || u == t)
    && (forall u <- was | u != t :: AheadOf(now, u) == if head then AheadOf(was, u) + {t} else AheadOf(was, u) - {t})
  }

  lemma RejoinedAtEnd(was: seq<Tid>, t: Tid, head: bool)
    requires Unique(was)
    ensures var rest := Remove(was, t);
      Joined(was, if head then [t] + rest else rest + [t], t, head)
  {
    RemoveKeeps(was, t);
    var rest := Remove(was, t);
    forall u <- was | u != t
      ensures AheadOf(rest + [t], u) == AheadOf(was, u) - {t} && AheadOf([t] + rest, u) == AheadOf(was, u) + {t}
    {
      AheadAfterRemove(was, t, u);
      AheadAfterAdd(rest, t, u);
    }
    hide Remove, AheadOf, Unique;
  }

  /** Every level but the task's own is left alone. */
  predicate OnlyLevel(q: Rq, q': Rq, prio: nat) {
    |q.queues| == |q'.queues| && forall i: nat | i < |q.queues| && i != prio :: q'.queues[i] == q.queues[i]
  }

  lemma EnqueueJoins(q: Rq, tasks: Tasks, cpu: nat, t: Tid, head: bool)
    requires RqOk(q, tasks, cpu) && t in tasks && tasks[t].prio < MAX_RT_PRIO
    ensures var q', p := EnqueueRq(q, tasks, t, head), tasks[t].prio;
      |q.queues| == MAX_RT_PRIO && OnlyLevel(q, q', p) && Joined(q.queues[p], q'.queues[p], t, head)
  {
    assert QueueOk(q.queues[tasks[t].prio], tasks, cpu, tasks[t].prio);
    RejoinedAtEnd(q.queues[tasks[t].prio], t, head);
    hide Joined, QueueOk, PlistOk, PushOk, Remove, Insert;
  }

  lemma RequeueJoins(q: Rq, tasks: Tasks, cpu: nat, t: Tid, head: bool)
    requires RqOk(q, tasks, cpu) && Queued(q, tasks, t)
    ensures var q', p := RequeueRq(q, tasks, t, head), tasks[t].prio;
      |q.queues| == MAX_RT_PRIO && p < MAX_RT_PRIO && OnlyLevel(q, q', p) && Joined(q.queues[p], q'.queues[p], t, head)
  {
    assert QueueOk(q.queues[tasks[t].prio], tasks, cpu, tasks[t].prio);
    RejoinedAtEnd(q.queues[tasks[t].prio], t, head);
    hide Joined, QueueOk, PlistOk, PushOk, Remove, Insert;
  }

  /** An enqueue, or a requeue of a queued task, puts it at the asked end of its level; the
      other tasks there keep their order, and the other levels are as they were. */
  lemma JoinsItsEnd(s: System, step: Step)
    requires Ok(s) && Enabled(s, step) && (step.Enqueue? || (step.Requeue? && OnRq(s, step.t)))
    ensures var t, c, s' := step.t, s.tasks[step.t].cpu, Next(s, step);
      && s'.tasks == s.tasks && |s'.rqs| == |s.rqs|
      && (forall k: nat | k < |s.rqs| && k != c :: s'.rqs[k] == s.rqs[k])
      && OnlyLevel(s.rqs[c], s'.rqs[c], s.tasks[t].prio) && s.tasks[t].prio < |s.rqs[c].queues|
      && Joined(s.rqs[c].queues[s.tasks[t].prio], s'.rqs[c].queues[s.tasks[t].prio], t, step.head)
  {
    var t := step.t;
    AllRqOk(s, s.tasks[t].cpu);
    if step.Enqueue? {
      EnqueueJoins(Home(s, t), s.tasks, s.tasks[t].cpu, t, step.head);
    } else {
      RequeueJoins(Home(s, t), s.tasks, s.tasks[t].cpu, t, step.head);
    }
    hide Joined, EnqueueRq, RequeueRq;
  }

  // ---------------------------------------------------------------------------
  // whole runs
  // ---------------------------------------------------------------------------

  /** The tasks that stand before a queued one at its level. */
  function Line(s: System, u: Tid): set<Tid>
    requires Ok(s) && OnRq(s, u)
  {
    AheadOf(Home(s, u).queues[s.tasks[u].prio], u)
  }

  predicate SameLevel(s: System, t: Tid, u: Tid) {
    t in s.tasks && u in s.tasks && s.tasks[t].cpu == s.tasks[u].cpu && s.tasks[t].prio == s.tasks[u].prio
  }

  /** A step that leaves `u` where it stands and lets nobody in at the head of its level. */
  predicate LeavesInPlace(s: System, step: Step, u: Tid) {
    match step
    case Enqueue(t, head) => t != u && !(head && SameLevel(s, t, u))
    case Requeue(t, head) => t != u && !(head && SameLevel(s, t, u))
    case Dequeue(t) => t != u
    case Push(_, t, _) => t != u
    case Pull(_, _, t) => t != u
    case _ => true
  }

  /** `u` still stands at its level, behind nobody new. */
  ghost predicate NoLonger(s: System, s': System, u: Tid)
    requires Ok(s) && OnRq(s, u)
  {
    && Ok(s') && OnRq(s', u) && s'.tasks[u].cpu == s.tasks[u].cpu && s'.tasks[u].prio == s.tasks[u].prio
    && Line(s', u) <= Line(s, u)
  }

  lemma LineAfterJoin(s: System, step: Step, u: Tid)
    requires Ok(s) && OnRq(s, u) && Enabled(s, step) && LeavesInPlace(s, step, u)
    requires step.Enqueue? || (step.Requeue? && OnRq(s, step.t))
    ensures NoLonger(s, Next(s, step), u)
  {
    NextKeeps(s, step);
    JoinsItsEnd(s, step);
    hide Ok, Next, AheadOf;
  }

  lemma LineAfterDequeue(s: System, t: Tid, u: Tid)
    requires Ok(s) && OnRq(s, u) && Enabled(s, Dequeue(t)) && t != u
    ensures NoLonger(s, Next(s, Dequeue(t)), u)
  {
    NextKeeps(s, Dequeue(t));
    AllRqOk(s, s.tasks[u].cpu);
    if SameLevel(s, t, u) {
      var was := Home(s, u).queues[s.tasks[u].prio];
      assert QueueOk(was, s.tasks, s.tasks[u].cpu, s.tasks[u].prio);
      AheadAfterRemove(was, t, u);
    }
    hide Ok, PlistOk, PushOk, AheadOf, Remove, QueueOk;
  }

  lemma LineAfterMove(s: System, t: Tid, dest: nat, u: Tid)
    requires Ok(s) && OnRq(s, u) && OnRq(s, t) && t != Home(s, t).curr && t != u
    requires dest < |s.rqs| && s.tasks[t].cpu != dest
    ensures s.tasks[t].prio < MAX_RT_PRIO && NoLonger(s, Move(s, t, dest), u)
  {
    QueuedIsHere(s, s.tasks[t].cpu, t);
    MoveIsSteps(s, t, dest);
    var off := Next(s, Dequeue(t));
    var there := Next(off, SetTaskCpu(t, dest));
    LineAfterDequeue(s, t, u);
    assert OnRq(there, u) && Line(there, u) == Line(off, u);
    LineAfterJoin(there, Enqueue(t, false), u);
    hide Ok, AheadOf, Next, Move, OnRq;
  }

  lemma LineAfterOther(s: System, step: Step, u: Tid)
    requires Ok(s) && OnRq(s, u) && Enabled(s, step)
    requires step.Schedule? || step.SetAffinity? || step.SetPrio? || step.SetTaskCpu? || step.SetOnline? || step.SetThrottled?
             || (step.Requeue? && !OnRq(s, step.t))
    ensures NoLonger(s, Next(s, step), u)
  {
    NextKeeps(s, step);
    AllRqOk(s, s.tasks[u].cpu);
    hide AffinityRq, Switch, AheadOf, PlistOk, PushOk, Ok;
    match step
    case Schedule(c, offer) =>
      AllRqOk(s, c);
      SwitchKeeps(s.rqs[c], s.tasks, c, offer);
    case SetAffinity(t, mask) =>
      AllRqOk(s, s.tasks[t].cpu);
      AffinityKeeps(Home(s, t), s.tasks, s.tasks[t].cpu, t, mask);
    case _ =>
  }

  lemma LineStep(s: System, step: Step, u: Tid)
    requires Ok(s) && OnRq(s, u) && Enabled(s, step) && LeavesInPlace(s, step, u)
    ensures NoLonger(s, Next(s, step), u)
  {
    hide NoLonger;
    match step
    case Enqueue(_, _) => LineAfterJoin(s, step, u);
    case Requeue(t, _) =>
      if OnRq(s, t) {
        LineAfterJoin(s, step, u);
      } else {
        LineAfterOther(s, step, u);
      }
    case Dequeue(t) => LineAfterDequeue(s, t, u);
    case Push(c, t, dest) =>
      HeldIsQueued(s, c, t);
      LineAfterMove(s, t, dest, u);
    case Pull(c, src, t) =>
      PulledIsQueued(s, src, t);
      LineAfterMove(s, t, c, u);
    case _ => LineAfterOther(s, step, u);
  }

  /** While a task stays queued where it is and nobody joins its level at the head, nobody new
      comes before it, whatever else happens. */
  lemma {:induction false} LineNeverGrows(states: seq<System>, steps: seq<Step>, u: Tid, n: nat)
    requires IsRun(states, steps) && n < |states| && OnRq(states[0], u)
    requires forall k: nat | k < n :: LeavesInPlace(states[k], steps[k], u)
    ensures NoLonger(states[0], states[n], u)
  {
    if n > 0 {
      LineNeverGrows(states, steps, u, n - 1);
      LineStep(states[n - 1], steps[n - 1], u);
      hide Ok, Next, Enabled, LeavesInPlace, OnRq, Line;
    }
  }

  /** First come, first served: a task that does not stand before `u` at the start, be it not
      queued yet, queued behind it or queued elsewhere, is not picked at the level of `u`
      while `u` stays queued there. */
  lemma FirstComeFirstServed(states: seq<System>, steps: seq<Step>, u: Tid, v: Tid, n: nat, offer: Offer)
    requires IsRun(states, steps) && n < |states| && OnRq(states[0], u)
    requires forall k: nat | k < n :: LeavesInPlace(states[k], steps[k], u)
    requires v != u && v !in Line(states[0], u)
    ensures NoLonger(states[0], states[n], u)
    ensures var s, c := states[n], states[0].tasks[u].cpu;
      OnRq(s, v) && SameLevel(s, u, v) && Enabled(s, Schedule(c, offer)) ==> Next(s, Schedule(c, offer)).rqs[c].curr != v
  {
    LineNeverGrows(states, steps, u, n);
    var s, c := states[n], states[0].tasks[u].cpu;
    if OnRq(s, v) && SameLevel(s, u, v) && Enabled(s, Schedule(c, offer)) {
      NotPickedBehind(s, u, v, offer);
    }
  }

  /** A task that is not queued, or at another level, stands before nobody there. */
  lemma OutsidersAreNotAhead(s: System, u: Tid, v: Tid)
    requires Ok(s) && OnRq(s, u) && !(OnRq(s, v) && SameLevel(s, u, v))
    ensures v !in Line(s, u)
  {
    var c, queue := s.tasks[u].cpu, Home(s, u).queues[s.tasks[u].prio];
    assert QueueOk(queue, s.tasks, c, s.tasks[u].prio);
    AheadMembers(queue, u);
  }

  /** Only the front of a level is picked. */
  lemma NotPickedBehind(s: System, u: Tid, v: Tid, offer: Offer)
    requires Ok(s) && OnRq(s, u) && OnRq(s, v) && v != u && SameLevel(s, u, v) && v !in Line(s, u)
    requires Enabled(s, Schedule(s.tasks[u].cpu, offer))
    ensures Next(s, Schedule(s.tasks[u].cpu, offer)).rqs[s.tasks[u].cpu].curr != v
  {
    var c := s.tasks[u].cpu;
    var queue := s.rqs[c].queues[s.tasks[u].prio];
    assert RqOk(s.rqs[c], s.tasks, c);
    assert queue[0] != v;
  }

  /** The other classes get the CPU exactly when a stop task is there, the queue is throttled,
      or nothing is queued. */
  lemma FallbackIff(s: System, c: nat, offer: Offer)
    requires Ok(s) && Enabled(s, Schedule(c, offer))
    ensures Next(s, Schedule(c, offer)).rqs[c].curr == offer.fallback <==>
            offer.stop || s.rqs[c].throttled || forall t <- s.tasks :: !Queued(s.rqs[c], s.tasks, t)
  {
    var q := s.rqs[c];
    assert RqOk(q, s.tasks, c);
    if Best(q) < |q.queues| {
      FrontIsQueued(q, s.tasks, c);
    } else {
      forall t <- s.tasks ensures !Queued(q, s.tasks, t) {
        assert s.tasks[t].prio < |q.queues| ==> q.queues[s.tasks[t].prio] == [];
      }
    }
  }

  /** Among equally urgent tasks the pushable list is in order of arrival too: a new one goes
      behind everybody at least as urgent and before everybody less so. */
  lemma {:induction false} InsertsBehindEquals(s: seq<Tid>, tasks: Tasks, t: Tid) returns (k: nat)
    requires t in tasks && PlistOk(s, tasks)
    ensures k <= |s| && Insert(s, tasks, t) == s[..k] + [t] + s[k..]
    ensures forall u <- s[..k] :: tasks[u].prio <= tasks[t].prio
    ensures forall u <- s[k..] :: tasks[t].prio < tasks[u].prio
  {
    ConsOk(s, tasks);
    if s == [] || tasks[t].prio < tasks[s[0]].prio {
      k := 0;
    } else {
      k := InsertsBehindEquals(s[1..], tasks, t);
      k := k + 1;
      assert s[..k] == [s[0]] + s[1..][..k - 1] && s[k..] == s[1..][k - 1..];
    }
    hide PlistOk;
  }
}
