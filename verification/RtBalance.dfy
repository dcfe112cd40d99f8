/** Pushing and pulling real-time tasks between CPUs.

    The search for a target CPU (`find_lowest_rq`, which asks cpupri and the domain
    topology) is a parameter that may answer anything the task's mask allows.  Taking the
    second run-queue lock may drop the first; what the other CPUs do meanwhile is a
    parameter too, any finite number of bursts of any steps. */
module RtBalance {
  import opened TaskLists
  import opened RtModel
  import opened RtRunqueue

  // ---------------------------------------------------------------------------
  // the environment
  // ---------------------------------------------------------------------------

  /** What `find_lowest_rq` answers the given time it is asked, in the given state, for the
      task: a CPU or -1. */
  type Finder = (nat, System, Tid) -> int

  /** `cpupri_find` masks its answer with the task's affinity. */
  predicate Answers(find: Finder, k: nat, s: System, t: Tid) {
    t in s.tasks ==> find(k, s, t) == -1 || (0 <= find(k, s, t) < |s.rqs| && find(k, s, t) in s.tasks[t].allowed)
  }

  ghost predicate Sane(find: Finder) {
    forall k: nat, s: System, t: Tid :: Answers(find, k, s, t)
  }

  /** `double_lock_balance`: the lock is kept, or it is dropped and the others make steps. */
  datatype Drop = Kept | Dropped(burst: seq<Step>)

  /** What happens the given time a second lock is taken; in the end everyone else is quiet. */
  function At(env: seq<Drop>, k: nat): Drop {
    if k < |env| then env[k] else Kept
  }

  /** The steps of a burst, those that are not possible when their turn comes left out. */
  function RunBurst(s: System, burst: seq<Step>): (s': System)
    requires Ok(s)
    ensures Ok(s') && |s'.rqs| == |s.rqs| && s'.tasks.Keys == s.tasks.Keys
    decreases |burst|
  {
    if burst == [] then s
    else if Enabled(s, burst[0]) then
      NextKeeps(s, burst[0]);
      NextKeepsTasks(s, burst[0]);
      RunBurst(Next(s, burst[0]), burst[1..])
    else RunBurst(s, burst[1..])
  }

  lemma NextKeepsTasks(s: System, step: Step)
    requires Ok(s) && Enabled(s, step)
    ensures Next(s, step).tasks.Keys == s.tasks.Keys
  {
    hide Queued, DequeueRq, EnqueueRq, RequeueRq, Switch, AffinityRq, RqOk;
    match step
    case Push(c, t, _) => HeldIsQueued(s, c, t);
    case Pull(_, src, t) => PulledIsQueued(s, src, t);
    case _ =>
  }

  function Disturbed(s: System, drop: Drop): (s': System)
    requires Ok(s)
    ensures Ok(s') && |s'.rqs| == |s.rqs| && s'.tasks.Keys == s.tasks.Keys
  {
    match drop
    case Kept => s
    case Dropped(burst) => RunBurst(s, burst)
  }

  /** A step that some burst contains. */
  ghost predicate Foreign(env: seq<Drop>, step: Step) {
    exists k: nat :: k < |env| && env[k].Dropped? && step in env[k].burst
  }

  predicate Own(step: Step, c: nat) {
    (step.Push? || step.Pull?) && step.cpu == c
  }

  /** `steps` lead from `s` to `s'`; `mine` of them are pushes or pulls of CPU `c`, the others
      belong to the environment. */
  ghost predicate Trace(s: System, steps: seq<Step>, s': System, c: nat, env: seq<Drop>, mine: nat)
    decreases |steps|
  {
    && Ok(s)
    && if steps == [] then s' == s && mine == 0
       else
         && Enabled(s, steps[0])
         && ((Own(steps[0], c) && mine > 0 && Trace(Next(s, steps[0]), steps[1..], s', c, env, mine - 1))
             || (Foreign(env, steps[0]) && Trace(Next(s, steps[0]), steps[1..], s', c, env, mine)))
  }

  lemma {:induction false} TraceOn(s: System, steps: seq<Step>, s1: System, more: seq<Step>, s2: System,
                                   c: nat, env: seq<Drop>, m: nat, n: nat)
    requires Trace(s, steps, s1, c, env, m) && Trace(s1, more, s2, c, env, n)
    ensures Trace(s, steps + more, s2, c, env, m + n)
    decreases |steps|
  {
    hide Ok, Enabled, Next, Own, Foreign;
    if steps == [] {
      assert steps + more == more;
    } else {
      assert (steps + more)[1..] == steps[1..] + more;
      var s' := Next(s, steps[0]);
      if Own(steps[0], c) && m > 0 && Trace(s', steps[1..], s1, c, env, m - 1) {
        TraceOn(s', steps[1..], s1, more, s2, c, env, m - 1, n);
      } else {
        TraceOn(s', steps[1..], s1, more, s2, c, env, m, n);
      }
    }
  }

  /** So every result about runs applies to what these functions do. */
  lemma {:induction false} TraceIsRun(s: System, steps: seq<Step>, s': System, c: nat, env: seq<Drop>, mine: nat)
      returns (states: seq<System>)
    requires Trace(s, steps, s', c, env, mine)
    ensures IsRun(states, steps) && states[0] == s && states[|steps|] == s'
    decreases |steps|
  {
    hide Ok, Enabled, Next;
    if steps == [] {
      states := [s];
    } else {
      var s1 := Next(s, steps[0]);
      var later: seq<System>;
      if Trace(s1, steps[1..], s', c, env, mine) {
        later := TraceIsRun(s1, steps[1..], s', c, env, mine);
      } else {
        later := TraceIsRun(s1, steps[1..], s', c, env, mine - 1);
      }
      RunPrepends(s, steps[0], later, steps[1..]);
      states := [s] + later;
      assert [steps[0]] + steps[1..] == steps;
    }
  }

  lemma RunPrepends(s: System, step: Step, states: seq<System>, steps: seq<Step>)
    requires Ok(s) && Enabled(s, step) && IsRun(states, steps) && states[0] == Next(s, step)
    ensures IsRun([s] + states, [step] + steps)
  {
    hide Ok, Enabled, Next;
    var states', steps' := [s] + states, [step] + steps;
    forall k: nat | k < |steps'| && Ok(states'[k])
      ensures Enabled(states'[k], steps'[k]) && states'[k + 1] == Next(states'[k], steps'[k])
    {
      assert k > 0 ==> states'[k] == states[k - 1] && steps'[k] == steps[k - 1];
    }
  }

  lemma OneOwn(s: System, step: Step, c: nat, env: seq<Drop>)
    requires Ok(s) && Enabled(s, step) && Own(step, c)
    ensures Ok(Next(s, step)) && Trace(s, [step], Next(s, step), c, env, 1)
  {
    NextKeeps(s, step);
    assert Trace(Next(s, step), [], Next(s, step), c, env, 0);
    assert [step][1..] == [];
  }

  lemma {:induction false} BurstTrace(s: System, burst: seq<Step>, c: nat, env: seq<Drop>) returns (steps: seq<Step>)
    requires Ok(s) && forall step <- burst :: Foreign(env, step)
    ensures Trace(s, steps, RunBurst(s, burst), c, env, 0)
    decreases |burst|
  {
    hide Enabled, Next, Foreign;
    if burst == [] {
      steps := [];
    } else if Enabled(s, burst[0]) {
      NextKeeps(s, burst[0]);
      var rest := BurstTrace(Next(s, burst[0]), burst[1..], c, env);
      steps := [burst[0]] + rest;
    } else {
      steps := BurstTrace(s, burst[1..], c, env);
    }
  }

  lemma DropTrace(s: System, c: nat, env: seq<Drop>, k: nat) returns (steps: seq<Step>)
    requires Ok(s)
    ensures Trace(s, steps, Disturbed(s, At(env, k)), c, env, 0)
  {
    if k < |env| && env[k].Dropped? {
      steps := BurstTrace(s, env[k].burst, c, env);
    } else {
      steps := [];
    }
  }

  // ---------------------------------------------------------------------------
  // the search for a target
  // ---------------------------------------------------------------------------

  /** `find_lock_lowest_rq` from try `k` on, `pos` searches having been made before: the state
      it leaves, the CPU if it found one, and the searches made by then.  After a dropped lock
      the task must still be held and allowed there. */
  function Search(s: System, c: nat, t: Tid, find: Finder, env: seq<Drop>, pos: nat, k: nat): (r: (System, Option<nat>, nat))
    requires Ok(s) && c < |s.rqs| && t in s.tasks && Sane(find) && k <= RT_MAX_TRIES
    ensures Ok(r.0) && |r.0.rqs| == |s.rqs| && r.0.tasks.Keys == s.tasks.Keys && r.2 >= pos
    decreases RT_MAX_TRIES - k
  {
    assert Answers(find, pos, s, t);
    if k == RT_MAX_TRIES || find(pos, s, t) == -1 || find(pos, s, t) == c then (s, None, pos)
    else
      var cpu := find(pos, s, t);
      var s1 := Disturbed(s, At(env, pos));
      if At(env, pos).Dropped? && !(Held(s1, c, t) && cpu in s1.tasks[t].allowed) then (s1, None, pos + 1)
      else if s1.tasks[t].prio < Best(s1.rqs[cpu]) then (s1, Some(cpu), pos + 1)
      else Search(s1, c, t, find, env, pos + 1, k + 1)
  }

  /** Whatever happened meanwhile, a CPU that is found is allowed, is another one, and the task
      is still held and outranks everything queued there. */
  lemma {:induction false} SearchIsSuitable(s: System, c: nat, t: Tid, find: Finder, env: seq<Drop>, pos: nat, k: nat)
    requires Ok(s) && Held(s, c, t) && Sane(find) && k <= RT_MAX_TRIES
    ensures t in s.tasks
    ensures var (s', dest, _) := Search(s, c, t, find, env, pos, k);
      dest.Some? ==> MayPush(s', c, t, dest.value)
    decreases RT_MAX_TRIES - k
  {
    hide Queued, Best, RunBurst;
    HeldIsQueued(s, c, t);
    assert Answers(find, pos, s, t);
    var s1 := Disturbed(s, At(env, pos));
    if k < RT_MAX_TRIES && Held(s1, c, t) {
      SearchIsSuitable(s1, c, t, find, env, pos + 1, k + 1);
    }
  }

  // -- what a search finds

  /** The state when `i` locks have been taken from the given time on. */
  function After(s: System, env: seq<Drop>, pos: nat, i: nat): (s': System)
    requires Ok(s)
    ensures Ok(s') && |s'.rqs| == |s.rqs| && s'.tasks.Keys == s.tasks.Keys
    decreases i
  {
    if i == 0 then s else After(Disturbed(s, At(env, pos)), env, pos + 1, i - 1)
  }

  /** What try `i` is answered. */
  function Answer(s: System, t: Tid, find: Finder, env: seq<Drop>, pos: nat, i: nat): int
    requires Ok(s)
  {
    find(pos + i, After(s, env, pos, i), t)
  }

  /** Try `i` gets another CPU's lock, and if that meant dropping its own, the task may still
      go there. */
  predicate Reaches(s: System, c: nat, t: Tid, find: Finder, env: seq<Drop>, pos: nat, i: nat)
    requires Ok(s)
  {
    var cpu, s1 := Answer(s, t, find, env, pos, i), After(s, env, pos, i + 1);
    && cpu != -1 && cpu != c
    && (At(env, pos + i).Dropped? ==> Held(s1, c, t) && t in s1.tasks && cpu in s1.tasks[t].allowed)
  }

  /** And there the task would outrank everything queued. */
  predicate Outranks(s: System, t: Tid, find: Finder, env: seq<Drop>, pos: nat, i: nat)
    requires Ok(s)
  {
    var cpu, s1 := Answer(s, t, find, env, pos, i), After(s, env, pos, i + 1);
    0 <= cpu < |s1.rqs| && t in s1.tasks && s1.tasks[t].prio < Best(s1.rqs[cpu])
  }

  /** The first `j` tries reach CPUs that run something as urgent. */
  predicate InVain(s: System, c: nat, t: Tid, find: Finder, env: seq<Drop>, pos: nat, j: nat)
    requires Ok(s)
  {
    forall i: nat | i < j :: Reaches(s, c, t, find, env, pos, i) && !Outranks(s, t, find, env, pos, i)
  }

  /** After some tries in vain, one of the three reaches a CPU that suits, and that is it. */
  ghost predicate Found(s: System, c: nat, t: Tid, find: Finder, env: seq<Drop>, pos: nat, s': System, dest: nat)
    requires Ok(s)
  {
    exists j: nat | j < RT_MAX_TRIES ::
      && InVain(s, c, t, find, env, pos, j)
      && Reaches(s, c, t, find, env, pos, j) && Outranks(s, t, find, env, pos, j)
      && s' == After(s, env, pos, j + 1) && dest == Answer(s, t, find, env, pos, j)
  }

  /** All three tries are in vain, or one of them reaches nothing. */
  ghost predicate Refused(s: System, c: nat, t: Tid, find: Finder, env: seq<Drop>, pos: nat, s': System)
    requires Ok(s)
  {
    exists j: nat | j <= RT_MAX_TRIES ::
      && InVain(s, c, t, find, env, pos, j)
      && (j == RT_MAX_TRIES || !Reaches(s, c, t, find, env, pos, j))
      && s' == After(s, env, pos, j + if j < RT_MAX_TRIES && Locks(s, c, t, find, env, pos, j) then 1 else 0)
  }

  /** Try `i` is answered by another CPU, so that its lock is taken. */
  predicate Locks(s: System, c: nat, t: Tid, find: Finder, env: seq<Drop>, pos: nat, i: nat)
    requires Ok(s)
  {
    Answer(s, t, find, env, pos, i) != -1 && Answer(s, t, find, env, pos, i) != c
  }

  /** Try by try. */
  lemma {:induction false} SearchTries(s: System, c: nat, t: Tid, find: Finder, env: seq<Drop>, pos: nat, k: nat) returns (j: nat)
    requires Ok(s) && c < |s.rqs| && t in s.tasks && Sane(find) && k <= RT_MAX_TRIES
    ensures k + j <= RT_MAX_TRIES && InVain(s, c, t, find, env, pos, j)
    ensures var (s', dest, pos') := Search(s, c, t, find, env, pos, k);
      && (dest.Some? ==>
            && k + j < RT_MAX_TRIES && Reaches(s, c, t, find, env, pos, j) && Outranks(s, t, find, env, pos, j)
            && s' == After(s, env, pos, j + 1) && dest.value == Answer(s, t, find, env, pos, j) && pos' == pos + j + 1)
      && (dest.None? ==>
            && (k + j == RT_MAX_TRIES || !Reaches(s, c, t, find, env, pos, j))
            && s' == After(s, env, pos, j + if k + j < RT_MAX_TRIES && Locks(s, c, t, find, env, pos, j) then 1 else 0))
    decreases RT_MAX_TRIES - k
  {
    hide Ok, Best, RunBurst, Held, Disturbed;
    assert Answers(find, pos, s, t);
    j := 0;
    OneAfter(s, env, pos);
    var s1 := Disturbed(s, At(env, pos));
    if k < RT_MAX_TRIES && Reaches(s, c, t, find, env, pos, 0) && !Outranks(s, t, find, env, pos, 0) {
      j := SearchTries(s1, c, t, find, env, pos + 1, k + 1);
      LaterTries(s, c, t, find, env, pos, j);
      LaterTry(s, c, t, find, env, pos, j);
      j := j + 1;
    }
  }

  lemma OneAfter(s: System, env: seq<Drop>, pos: nat)
    requires Ok(s)
    ensures After(s, env, pos, 0) == s && After(s, env, pos, 1) == Disturbed(s, At(env, pos))
  {
    assert After(Disturbed(s, At(env, pos)), env, pos + 1, 0) == Disturbed(s, At(env, pos));
  }

  lemma LaterTry(s: System, c: nat, t: Tid, find: Finder, env: seq<Drop>, pos: nat, i: nat)
    requires Ok(s)
    ensures var s1 := Disturbed(s, At(env, pos));
      && Reaches(s, c, t, find, env, pos, i + 1) == Reaches(s1, c, t, find, env, pos + 1, i)
      && Outranks(s, t, find, env, pos, i + 1) == Outranks(s1, t, find, env, pos + 1, i)
      && After(s, env, pos, i + 1) == After(s1, env, pos + 1, i)
      && After(s, env, pos, i + 2) == After(s1, env, pos + 1, i + 1)
      && Locks(s, c, t, find, env, pos, i + 1) == Locks(s1, c, t, find, env, pos + 1, i)
      && Answer(s, t, find, env, pos, i + 1) == Answer(s1, t, find, env, pos + 1, i)
  {
    hide Ok, Best, Held, Disturbed;
    assert pos + (i + 1) == (pos + 1) + i;
  }

  lemma LaterTries(s: System, c: nat, t: Tid, find: Finder, env: seq<Drop>, pos: nat, j: nat)
    requires Ok(s) && Reaches(s, c, t, find, env, pos, 0) && !Outranks(s, t, find, env, pos, 0)
    requires InVain(Disturbed(s, At(env, pos)), c, t, find, env, pos + 1, j)
    ensures InVain(s, c, t, find, env, pos, j + 1)
  {
    hide Ok, Best, Held, Disturbed, Reaches, Outranks;
    forall i: nat | i < j + 1
      ensures Reaches(s, c, t, find, env, pos, i) && !Outranks(s, t, find, env, pos, i)
    {
      if i > 0 {
        LaterTry(s, c, t, find, env, pos, i - 1);
      }
    }
  }

  /** The whole of `find_lock_lowest_rq`, whatever the others do while the lock is dropped: it
      finds the first CPU in three tries that suits, and finds none exactly when the tries are
      used up in vain or one reaches nothing. */
  lemma SearchMeans(s: System, c: nat, t: Tid, find: Finder, env: seq<Drop>, pos: nat)
    requires Ok(s) && c < |s.rqs| && t in s.tasks && Sane(find)
    ensures var (s', dest, _) := Search(s, c, t, find, env, pos, 0);
      && (dest.Some? <==> exists s1, cpu: nat :: Found(s, c, t, find, env, pos, s1, cpu))
      && (forall s1, cpu: nat :: Found(s, c, t, find, env, pos, s1, cpu) ==> s1 == s' && dest == Some(cpu))
      && (dest.None? <==> exists s1 :: Refused(s, c, t, find, env, pos, s1))
      && (forall s1 :: Refused(s, c, t, find, env, pos, s1) ==> s1 == s')
  {
    hide Ok, Search, InVain, Reaches, Outranks, After, Answer, Locks;
    var j := SearchTries(s, c, t, find, env, pos, 0);
    var (s', dest, _) := Search(s, c, t, find, env, pos, 0);
    if dest.Some? {
      assert Found(s, c, t, find, env, pos, s', dest.value);
    } else {
      assert Refused(s, c, t, find, env, pos, s');
    }
    forall s1, cpu: nat | Found(s, c, t, find, env, pos, s1, cpu) ensures s1 == s' && dest == Some(cpu) {
      var i: nat :| i < RT_MAX_TRIES && InVain(s, c, t, find, env, pos, i)
        && Reaches(s, c, t, find, env, pos, i) && Outranks(s, t, find, env, pos, i)
        && s1 == After(s, env, pos, i + 1) && cpu == Answer(s, t, find, env, pos, i);
      SameTry(s, c, t, find, env, pos, i, j);
    }
    forall s1 | Refused(s, c, t, find, env, pos, s1) ensures s1 == s' && dest.None? {
      var i: nat :| i <= RT_MAX_TRIES && InVain(s, c, t, find, env, pos, i)
        && (i == RT_MAX_TRIES || !Reaches(s, c, t, find, env, pos, i))
        && s1 == After(s, env, pos, i + if i < RT_MAX_TRIES && Locks(s, c, t, find, env, pos, i) then 1 else 0);
      SameTry(s, c, t, find, env, pos, i, j);
    }
  }

  /** The third try counts, and it is the last. */
  lemma ThirdTryIsLast(s: System, c: nat, t: Tid, find: Finder, env: seq<Drop>, pos: nat)
    requires Ok(s) && c < |s.rqs| && t in s.tasks && Sane(find)
    ensures InVain(s, c, t, find, env, pos, 2) && Reaches(s, c, t, find, env, pos, 2) && Outranks(s, t, find, env, pos, 2) ==>
      Search(s, c, t, find, env, pos, 0).1.Some?
    ensures InVain(s, c, t, find, env, pos, 3) ==> Search(s, c, t, find, env, pos, 0).1.None?
  {
    hide Ok, Search, Reaches, Outranks, After, Answer;
    var j := SearchTries(s, c, t, find, env, pos, 0);
  }

  /** Two tries after which a search may end are the same. */
  lemma SameTry(s: System, c: nat, t: Tid, find: Finder, env: seq<Drop>, pos: nat, i: nat, j: nat)
    requires Ok(s) && InVain(s, c, t, find, env, pos, i) && InVain(s, c, t, find, env, pos, j)
    requires i <= RT_MAX_TRIES && j <= RT_MAX_TRIES
    requires i == RT_MAX_TRIES || !Reaches(s, c, t, find, env, pos, i) || Outranks(s, t, find, env, pos, i)
    requires j == RT_MAX_TRIES || !Reaches(s, c, t, find, env, pos, j) || Outranks(s, t, find, env, pos, j)
    ensures i == j
  {
    hide Ok, Reaches, Outranks;
  }

  /** With everyone else quiet nothing changes; and an unfinished search has used up a part of
      the environment. */
  lemma {:induction false} SearchQuiet(s: System, c: nat, t: Tid, find: Finder, env: seq<Drop>, pos: nat, k: nat)
    requires Ok(s) && c < |s.rqs| && t in s.tasks && Sane(find) && k <= RT_MAX_TRIES
    ensures var (s', dest, pos') := Search(s, c, t, find, env, pos, k);
      && (pos >= |env| ==> s' == s)
      && (dest.Some? || s' != s ==> pos' > pos)
    decreases RT_MAX_TRIES - k
  {
    hide Ok, Best, RunBurst, Held;
    assert Answers(find, pos, s, t);
    if k < RT_MAX_TRIES && find(pos, s, t) != -1 && find(pos, s, t) != c {
      SearchQuiet(Disturbed(s, At(env, pos)), c, t, find, env, pos + 1, k + 1);
    }
  }

  lemma {:induction false} SearchTrace(s: System, c: nat, t: Tid, find: Finder, env: seq<Drop>, pos: nat, k: nat)
      returns (steps: seq<Step>)
    requires Ok(s) && c < |s.rqs| && t in s.tasks && Sane(find) && k <= RT_MAX_TRIES
    ensures Trace(s, steps, Search(s, c, t, find, env, pos, k).0, c, env, 0)
    decreases RT_MAX_TRIES - k
  {
    hide Ok, Best, RunBurst, Held, Trace;
    assert Answers(find, pos, s, t);
    NoSteps(s, c, env);
    if k == RT_MAX_TRIES || find(pos, s, t) == -1 || find(pos, s, t) == c {
      steps := [];
    } else {
      var s1 := Disturbed(s, At(env, pos));
      var first := DropTrace(s, c, env, pos);
      var rest := SearchTrace(s1, c, t, find, env, pos + 1, k + 1);
      TraceOn(s, first, s1, rest, Search(s1, c, t, find, env, pos + 1, k + 1).0, c, env, 0, 0);
      steps := if Search(s, c, t, find, env, pos, k) == Search(s1, c, t, find, env, pos + 1, k + 1) then first + rest else first;
    }
  }

  lemma NoSteps(s: System, c: nat, env: seq<Drop>)
    requires Ok(s)
    ensures Trace(s, [], s, c, env, 0)
  {
  }

  /** Executes one step on the machine. */
  method DoStep(m: RtScheduler, step: Step)
    requires m.Valid() && Enabled(m.Abs(), step)
    modifies m, m.rq
    ensures m.Valid() && m.Abs() == Next(old(m.Abs()), step)
  {
    hide Ok, Queued, Cached, MaskOk, PriOk, DequeueRq, EnqueueRq, RequeueRq, Switch, AffinityRq, Best;
    match step {
      case Enqueue(t, head) => m.ActivateTask(t, head);
      case Dequeue(t) => m.DeactivateTask(t);
      case Requeue(t, head) => m.RequeueTask(t, head);
      case Schedule(c, offer) => m.ScheduleCpu(c, offer);
      case SetPrio(t, prio) => m.SetPrio(t, prio);
      case SetTaskCpu(t, cpu) => m.SetTaskCpu(t, cpu);
      case SetAffinity(t, mask) => m.SetCpusAllowed(t, mask);
      case SetOnline(c, online) => SwitchOnline(m, c, online);
      case SetThrottled(c, throttled) => m.StoreThrottled(c, throttled);
      case Push(c, t, dest) =>
        HeldIsQueued(m.Abs(), c, t);
        MoveTask(m, t, dest);
      case Pull(c, src, t) =>
        PulledIsQueued(m.Abs(), src, t);
        MoveTask(m, t, c);
    }
  }

  method SwitchOnline(m: RtScheduler, c: nat, online: bool)
    requires m.Valid() && c < m.rq.Length
    modifies m, m.rq
    ensures m.Valid() && m.Abs() == Next(old(m.Abs()), SetOnline(c, online))
  {
    hide Ok, Cached, MaskOk, PriOk;
    if m.rq[c].q.online == online {
      assert m.Abs().rqs[c := m.Abs().rqs[c].(online := online)] == m.Abs().rqs;
    } else if online {
      m.RqOnline(c);
    } else {
      m.RqOffline(c);
    }
  }

  /** `double_lock_balance` with what the others do while the lock is dropped. */
  method DoubleLock(m: RtScheduler, drop: Drop)
    requires m.Valid()
    modifies m, m.rq
    ensures m.Valid() && m.Abs() == Disturbed(old(m.Abs()), drop)
    ensures drop.Kept? ==> m.rq[..] == old(m.rq[..])
  {
    hide Ok, Enabled, Next, Cached, MaskOk, PriOk;
    match drop {
      case Kept =>
      case Dropped(burst) =>
        var i: nat := 0;
        while i < |burst|
          invariant i <= |burst| && m.Valid()
          invariant RunBurst(m.Abs(), burst[i..]) == RunBurst(old(m.Abs()), burst)
        {
          assert burst[i..][1..] == burst[i + 1..];
          if Enabled(m.Abs(), burst[i]) {
            DoStep(m, burst[i]);
          }
          i := i + 1;
        }
    }
  }

  method FindLockLowestRq(m: RtScheduler, c: nat, t: Tid, find: Finder, env: seq<Drop>, pos0: nat)
      returns (dest: Option<nat>, pos: nat)
    requires m.Valid() && c < m.rq.Length && t in m.tasks && Sane(find)
    modifies m, m.rq
    ensures m.Valid() && (m.Abs(), dest, pos) == Search(old(m.Abs()), c, t, find, env, pos0, 0)
    ensures if dest.Some? then Found(old(m.Abs()), c, t, find, env, pos0, m.Abs(), dest.value)
            else Refused(old(m.Abs()), c, t, find, env, pos0, m.Abs())
  {
    dest, pos := SearchThreeTimes(m, c, t, find, env, pos0);
    SearchMeans(old(m.Abs()), c, t, find, env, pos0);
    hide Found, Refused, Search;
  }

  method SearchThreeTimes(m: RtScheduler, c: nat, t: Tid, find: Finder, env: seq<Drop>, pos0: nat)
      returns (dest: Option<nat>, pos: nat)
    requires m.Valid() && c < m.rq.Length && t in m.tasks && Sane(find)
    modifies m, m.rq
    ensures m.Valid() && (m.Abs(), dest, pos) == Search(old(m.Abs()), c, t, find, env, pos0, 0)
  {
    hide Ok, Bits, Counts, NextCached, MaskOk, PriOk, RunBurst, Disturbed, Search, Held, Queued;
    var tries: nat := 0;
    pos := pos0;
    while tries < RT_MAX_TRIES
      invariant tries <= RT_MAX_TRIES && m.Valid() && t in m.tasks && pos == pos0 + tries
      invariant Search(old(m.Abs()), c, t, find, env, pos0, 0) == Search(m.Abs(), c, t, find, env, pos, tries)
    {
      SearchRound(m.Abs(), c, t, find, env, pos, tries);
      var cpu := find(pos, m.Abs(), t);
      if cpu == -1 || cpu == c {
        return None, pos;
      }
      DoubleLock(m, At(env, pos));
      if At(env, pos).Dropped? {
        HeldIs(m.Abs(), c, t);
        if m.tasks[t].cpu != c || cpu !in m.tasks[t].allowed || m.rq[c].q.curr == t || !Queued(m.rq[c].q, m.tasks, t) {
          return None, pos + 1;
        }
      }
      if m.rq[cpu].hpCurr > m.tasks[t].prio {
        return Some(cpu), pos + 1;
      }
      tries, pos := tries + 1, pos + 1;
    }
    SearchEnds(m.Abs(), c, t, find, env, pos, tries);
    dest := None;
  }

  /** One round of the search, and its end. */
  lemma SearchRound(s: System, c: nat, t: Tid, find: Finder, env: seq<Drop>, pos: nat, k: nat)
    requires Ok(s) && c < |s.rqs| && t in s.tasks && Sane(find) && k < RT_MAX_TRIES
    ensures var cpu, s1, r := find(pos, s, t), Disturbed(s, At(env, pos)), Search(s, c, t, find, env, pos, k);
      && (cpu == -1 || 0 <= cpu < |s.rqs|)
      && (if cpu == -1 || cpu == c then r == (s, None, pos)
          else if At(env, pos).Dropped? && !(Held(s1, c, t) && cpu in s1.tasks[t].allowed) then r == (s1, None, pos + 1)
          else if s1.tasks[t].prio < Best(s1.rqs[cpu]) then cpu >= 0 && r == (s1, Some(cpu as nat), pos + 1)
          else r == Search(s1, c, t, find, env, pos + 1, k + 1))
  {
    hide Ok, Best, Held, Disturbed;
    assert Answers(find, pos, s, t);
  }

  lemma SearchEnds(s: System, c: nat, t: Tid, find: Finder, env: seq<Drop>, pos: nat, k: nat)
    requires Ok(s) && c < |s.rqs| && t in s.tasks && Sane(find) && k == RT_MAX_TRIES
    ensures Search(s, c, t, find, env, pos, k) == (s, None, pos)
  {
    assert Answers(find, pos, s, t);
  }

  /** The source's four tests after a dropped lock ask whether the task is still held. */
  lemma HeldIs(s: System, c: nat, t: Tid)
    requires Ok(s) && c < |s.rqs| && t in s.tasks
    ensures Held(s, c, t) <==> s.tasks[t].cpu == c && s.rqs[c].curr != t && Queued(s.rqs[c], s.tasks, t)
  {
    if Held(s, c, t) {
      HeldIsQueued(s, c, t);
    }
  }

  /** The assertions are the five BUG_ONs of the source, in its order. */
  method PickNextPushableTask(m: RtScheduler, c: nat) returns (next: Option<Tid>)
    requires m.Valid() && c < m.rq.Length
    ensures next == if m.rq[c].q.pushable == [] then None else Some(m.rq[c].q.pushable[0])
  {
    if m.rq[c].q.pushable == [] {
      return None;
    }
    var p := m.rq[c].q.pushable[0];
    PushedIsHere(m.Abs(), c);
    assert p in m.tasks && m.tasks[p].cpu == c;
    assert m.rq[c].q.curr != p;
    assert |m.tasks[p].allowed| > 1;
    assert Queued(m.rq[c].q, m.tasks, p);
    assert m.tasks[p].prio < MAX_RT_PRIO;
    next := Some(p);
  }

  /** Deactivate, `set_task_cpu`, activate. */
  method MoveTask(m: RtScheduler, t: Tid, dest: nat)
    requires m.Valid() && OnRq(m.Abs(), t) && t != Home(m.Abs(), t).curr
    requires dest < m.rq.Length && m.tasks[t].cpu != dest
    modifies m, m.rq
    ensures m.Valid() && old(m.tasks)[t].prio < MAX_RT_PRIO && m.Abs() == Move(old(m.Abs()), t, dest)
    ensures forall k: nat | k < m.rq.Length && k != dest && k != old(m.tasks)[t].cpu :: m.rq[k] == old(m.rq[k])
  {
    ghost var s, rqs := m.Abs(), m.rq[..];
    QueuedIsHere(s, m.tasks[t].cpu, t);
    MoveIsSteps(s, t, dest);
    hide Ok, Queued, Cached, MaskOk, PriOk, DequeueRq, EnqueueRq;
    m.DeactivateTask(t);
    m.SetTaskCpu(t, dest);
    m.ActivateTask(t, false);
    MoveFrame(rqs, m.rq[..], s, t, dest);
  }

  /** A move leaves every field of the other CPUs alone. */
  lemma MoveFrame(rqs: seq<RtRq>, rqs': seq<RtRq>, s: System, t: Tid, dest: nat)
    requires Ok(s) && OnRq(s, t) && t != Home(s, t).curr && s.tasks[t].prio < MAX_RT_PRIO
    requires dest < |s.rqs| && s.tasks[t].cpu != dest
    requires s.rqs == Lists(rqs) && Move(s, t, dest).rqs == Lists(rqs')
    requires forall k: nat | k < |rqs| :: Cached(rqs[k], s.tasks)
    requires forall k: nat | k < |rqs'| :: Cached(rqs'[k], Move(s, t, dest).tasks)
    ensures |rqs| == |rqs'|
    ensures forall k: nat | k < |rqs| && k != dest && k != s.tasks[t].cpu :: rqs'[k] == rqs[k]
  {
    var s' := Move(s, t, dest);
    assert |s'.rqs| == |s.rqs|;
    MoveKeeps(s, t, dest);
    forall k: nat | k < |rqs| && k != dest && k != s.tasks[t].cpu ensures rqs'[k] == rqs[k] {
      assert Lists(rqs)[k] == rqs[k].q && Lists(rqs')[k] == rqs'[k].q;
      assert s'.rqs[k] == s.rqs[k];
      OthersFrame(rqs[k], rqs'[k], s, s', k, t, s'.tasks[t]);
    }
  }

  lemma OthersFrame(r: RtRq, r': RtRq, s: System, s': System, k: nat, t: Tid, task: Task)
    requires Ok(s) && Ok(s') && k < |s.rqs| && k < |s'.rqs| && t in s.tasks && s'.tasks == s.tasks[t := task]
    requires s.tasks[t].cpu != k && task.cpu != k
    requires r.q == s.rqs[k] == s'.rqs[k] == r'.q && Cached(r, s.tasks) && Cached(r', s'.tasks)
    ensures r' == r
  {
    if Queued(s.rqs[k], s.tasks, t) {
      QueuedIsHere(s, k, t);
      assert false;
    }
    if Queued(s'.rqs[k], s'.tasks, t) {
      QueuedIsHere(s', k, t);
      assert false;
    }
    TaskChangeCached(r, s.tasks, k, t, task);
    CachesAreDetermined(r, r', s'.tasks);
  }

  // ---------------------------------------------------------------------------
  // pushing
  // ---------------------------------------------------------------------------

  /** A whole search for a task that is held. */
  function Probe(s: System, c: nat, t: Tid, find: Finder, env: seq<Drop>, pos: nat): (r: (System, Option<nat>, nat))
    requires Ok(s) && Held(s, c, t) && t in s.tasks && Sane(find)
    ensures Ok(r.0) && |r.0.rqs| == |s.rqs| && r.2 >= pos
    ensures r.1.Some? ==> MayPush(r.0, c, t, r.1.value)
    ensures pos >= |env| ==> r.0 == s
    ensures r.1.Some? || r.0 != s ==> r.2 > pos
  {
    SearchIsSuitable(s, c, t, find, env, pos, 0);
    SearchQuiet(s, c, t, find, env, pos, 0);
    Search(s, c, t, find, env, pos, 0)
  }

  function Pushed(s: System, c: nat, t: Tid, dest: nat): (s': System)
    requires Ok(s) && MayPush(s, c, t, dest)
    ensures Ok(s') && |s'.rqs| == |s.rqs|
  {
    NextKeeps(s, Push(c, t, dest));
    Next(s, Push(c, t, dest))
  }

  /** `push_rt_task` from the test of the chosen task on: the state it leaves, whether it moved a
      task, and the searches made by then.  If the search fails and the head of the pushable
      list has changed meanwhile, it tries again with the new head. */
  function Attempt(s: System, c: nat, t: Tid, find: Finder, env: seq<Drop>, pos: nat): (r: (System, bool, nat))
    requires Ok(s) && c < |s.rqs| && Sane(find) && s.rqs[c].pushable != [] && s.rqs[c].pushable[0] == t
    ensures Ok(r.0) && |r.0.rqs| == |s.rqs| && r.2 >= pos
    decreases if pos < |env| then |env| - pos else 0
  {
    hide Ok, Held, MayPush, Sane;
    HeadIsHeld(s, c);
    if s.tasks[t].prio < s.tasks[s.rqs[c].curr].prio then (s, false, pos)
    else
      var (s1, dest, pos1) := Probe(s, c, t, find, env, pos);
      if dest.Some? then (Pushed(s1, c, t, dest.value), true, pos1)
      else if s1.rqs[c].pushable == [] || s1.rqs[c].pushable[0] == t then (s1, false, pos1)
      else Attempt(s1, c, s1.rqs[c].pushable[0], find, env, pos1)
  }

  /** `push_rt_task`. */
  function PushOnce(s: System, c: nat, overloaded: bool, find: Finder, env: seq<Drop>, pos: nat): (r: (System, bool, nat))
    requires Ok(s) && c < |s.rqs| && Sane(find)
    ensures Ok(r.0) && |r.0.rqs| == |s.rqs|
    ensures r.2 >= pos
  {
    if !overloaded || s.rqs[c].pushable == [] then (s, false, pos)
    else Attempt(s, c, s.rqs[c].pushable[0], find, env, pos)
  }

  /** It is a run of steps of the others that ends, if it moved a task, with a push that was
      possible when it was made. */
  lemma {:induction false} AttemptTrace(s: System, c: nat, t: Tid, find: Finder, env: seq<Drop>, pos: nat)
      returns (steps: seq<Step>)
    requires Ok(s) && c < |s.rqs| && Sane(find) && s.rqs[c].pushable != [] && s.rqs[c].pushable[0] == t
    ensures var (s', moved, _) := Attempt(s, c, t, find, env, pos);
      Trace(s, steps, s', c, env, if moved then 1 else 0)
    decreases if pos < |env| then |env| - pos else 0
  {
    hide Ok, Trace, MayPush, Held, Sane, Probe, Pushed;
    HeadIsHeld(s, c);
    NoSteps(s, c, env);
    if s.tasks[t].prio < s.tasks[s.rqs[c].curr].prio {
      return [];
    }
    var (s1, dest, pos1) := Probe(s, c, t, find, env, pos);
    steps := ProbeTrace(s, c, t, find, env, pos);
    if dest.Some? {
      steps := PushAfter(s, steps, s1, c, t, dest.value, env);
    } else if s1.rqs[c].pushable != [] && s1.rqs[c].pushable[0] != t {
      var rest := AttemptTrace(s1, c, s1.rqs[c].pushable[0], find, env, pos1);
      var (s2, moved, _) := Attempt(s1, c, s1.rqs[c].pushable[0], find, env, pos1);
      TraceOn(s, steps, s1, rest, s2, c, env, 0, if moved then 1 else 0);
      steps := steps + rest;
    }
  }

  lemma ProbeTrace(s: System, c: nat, t: Tid, find: Finder, env: seq<Drop>, pos: nat) returns (steps: seq<Step>)
    requires Ok(s) && Held(s, c, t) && t in s.tasks && Sane(find)
    ensures Trace(s, steps, Probe(s, c, t, find, env, pos).0, c, env, 0)
  {
    steps := SearchTrace(s, c, t, find, env, pos, 0);
  }

  lemma PushAfter(s: System, before: seq<Step>, s1: System, c: nat, t: Tid, dest: nat, env: seq<Drop>) returns (steps: seq<Step>)
    requires Trace(s, before, s1, c, env, 0) && Ok(s1) && MayPush(s1, c, t, dest)
    ensures Trace(s, steps, Pushed(s1, c, t, dest), c, env, 1)
  {
    hide Ok, Trace, MayPush, Next;
    OneOwn(s1, Push(c, t, dest), c, env);
    TraceOn(s, before, s1, [Push(c, t, dest)], Next(s1, Push(c, t, dest)), c, env, 0, 1);
    steps := before + [Push(c, t, dest)];
  }

  lemma HeadIsHeld(s: System, c: nat)
    requires Ok(s) && c < |s.rqs| && s.rqs[c].pushable != []
    ensures Held(s, c, s.rqs[c].pushable[0]) && s.rqs[c].pushable[0] in s.tasks && s.rqs[c].curr in s.tasks
  {
    PushedIsHere(s, c);
    AllRqOk(s, c);
  }

  lemma PushOnceTrace(s: System, c: nat, overloaded: bool, find: Finder, env: seq<Drop>, pos: nat)
      returns (steps: seq<Step>)
    requires Ok(s) && c < |s.rqs| && Sane(find)
    ensures var (s', moved, _) := PushOnce(s, c, overloaded, find, env, pos);
      Trace(s, steps, s', c, env, if moved then 1 else 0)
  {
    if !overloaded || s.rqs[c].pushable == [] {
      NoSteps(s, c, env);
      steps := [];
    } else {
      steps := AttemptTrace(s, c, s.rqs[c].pushable[0], find, env, pos);
    }
  }

  /** With everyone else quiet a push takes exactly the head off the pushable list, which is no
      more urgent than the current task, and a push that moves nothing changes nothing.  In
      any case a push that moves something has searched. */
  lemma PushOnceQuiet(s: System, c: nat, overloaded: bool, find: Finder, env: seq<Drop>, pos: nat)
    requires Ok(s) && c < |s.rqs| && Sane(find)
    ensures var (s', moved, pos') := PushOnce(s, c, overloaded, find, env, pos);
      && (pos >= |env| && !moved ==> s' == s)
      && (pos >= |env| && moved ==>
            && s.rqs[c].pushable != [] && s'.rqs[c].pushable == s.rqs[c].pushable[1..]
            && s.rqs[c].curr in s.tasks && s.rqs[c].pushable[0] in s.tasks
            && s.tasks[s.rqs[c].curr].prio <= s.tasks[s.rqs[c].pushable[0]].prio)
  {
    if overloaded && s.rqs[c].pushable != [] {
      var t := s.rqs[c].pushable[0];
      hide Held, MayPush, Sane, Probe;
      HeadIsHeld(s, c);
      var (s1, dest, _) := Probe(s, c, t, find, env, pos);
      if pos >= |env| && dest.Some? {
        PushShrinks(s1, c, t, dest.value);
      }
    }
  }

  lemma {:induction false} PushOnceSearches(s: System, c: nat, t: Tid, find: Finder, env: seq<Drop>, pos: nat)
    requires Ok(s) && c < |s.rqs| && Sane(find) && s.rqs[c].pushable != [] && s.rqs[c].pushable[0] == t
    ensures Attempt(s, c, t, find, env, pos).1 ==> Attempt(s, c, t, find, env, pos).2 > pos
    decreases if pos < |env| then |env| - pos else 0
  {
    hide Ok, Held, MayPush, Sane, Probe, Pushed;
    HeadIsHeld(s, c);
    var (s1, dest, pos1) := Probe(s, c, t, find, env, pos);
    if s1.rqs[c].pushable != [] && s1.rqs[c].pushable[0] != t && dest.None? {
      PushOnceSearches(s1, c, s1.rqs[c].pushable[0], find, env, pos1);
    }
  }

  // -- what a push does

  /** The head of the pushable list is more urgent than the current task, which is rescheduled
      instead. */
  predicate HeadPreempts(s: System, c: nat) {
    && c < |s.rqs| && s.rqs[c].pushable != []
    && s.rqs[c].pushable[0] in s.tasks && s.rqs[c].curr in s.tasks
    && s.tasks[s.rqs[c].pushable[0]].prio < s.tasks[s.rqs[c].curr].prio
  }

  /** In `u` the head of the pushable list does not preempt, and a search for it finds a CPU,
      where it then goes. */
  ghost predicate Takes(u: System, c: nat, find: Finder, env: seq<Drop>, p: nat, s': System) {
    && Ok(u) && c < |u.rqs| && u.rqs[c].pushable != [] && !HeadPreempts(u, c)
    && var t := u.rqs[c].pushable[0];
       exists v, dest: nat | Found(u, c, t, find, env, p, v, dest) ::
         Ok(v) && MayPush(v, c, t, dest) && s' == Next(v, Push(c, t, dest))
  }

  /** Nothing is left to push, or the head preempts, or a search for it from `u` ended here
      and found nothing. */
  ghost predicate Leaves(u: System, c: nat, find: Finder, env: seq<Drop>, p: nat, s': System) {
    && c < |s'.rqs|
    && (s'.rqs[c].pushable == [] || HeadPreempts(s', c)
        || (Ok(u) && c < |u.rqs| && u.rqs[c].pushable != [] && u.rqs[c].pushable[0] == s'.rqs[c].pushable[0]
            && Refused(u, c, s'.rqs[c].pushable[0], find, env, p, s')))
  }

  /** An attempt pushes the head of the list as it is at some time to the first CPU that
      suits; it gives up only on a head that it has tried last. */
  lemma {:induction false} AttemptMeans(s: System, c: nat, t: Tid, find: Finder, env: seq<Drop>, pos: nat)
      returns (u: System, p: nat)
    requires Ok(s) && c < |s.rqs| && Sane(find) && s.rqs[c].pushable != [] && s.rqs[c].pushable[0] == t
    ensures var (s', moved, _) := Attempt(s, c, t, find, env, pos);
      if moved then Takes(u, c, find, env, p, s') else Leaves(u, c, find, env, p, s')
    ensures pos >= |env| ==> u == s && p == pos
    decreases if pos < |env| then |env| - pos else 0
  {
    hide Ok, Held, MayPush, Sane, Next, Search, Found, Refused;
    HeadIsHeld(s, c);
    u, p := s, pos;
    if s.tasks[t].prio >= s.tasks[s.rqs[c].curr].prio {
      var (s1, dest, pos1) := Probe(s, c, t, find, env, pos);
      ProbeMeans(s, c, t, find, env, pos);
      if dest.Some? {
        PushedIs(s1, c, t, dest.value);
      } else if s1.rqs[c].pushable != [] && s1.rqs[c].pushable[0] != t {
        u, p := AttemptMeans(s1, c, s1.rqs[c].pushable[0], find, env, pos1);
      }
    }
  }

  lemma ProbeMeans(s: System, c: nat, t: Tid, find: Finder, env: seq<Drop>, pos: nat)
    requires Ok(s) && Held(s, c, t) && t in s.tasks && Sane(find)
    ensures var (s', dest, _) := Probe(s, c, t, find, env, pos);
      if dest.Some? then Found(s, c, t, find, env, pos, s', dest.value) else Refused(s, c, t, find, env, pos, s')
  {
    SearchMeans(s, c, t, find, env, pos);
    hide Found, Refused, Search, Ok;
  }

  lemma PushedIs(s: System, c: nat, t: Tid, dest: nat)
    requires Ok(s) && MayPush(s, c, t, dest)
    ensures Pushed(s, c, t, dest) == Next(s, Push(c, t, dest))
  {
  }

  /** What `find_lowest_rq` answers at the `i`-th of the times from `pos` on. */
  function Told(s: System, t: Tid, find: Finder, pos: nat, i: nat): int {
    find(pos + i, s, t)
  }

  /** It names another CPU, where the task outranks everything queued, or does not. */
  predicate Suits(s: System, c: nat, t: Tid, find: Finder, pos: nat, i: nat) {
    var a := Told(s, t, find, pos, i);
    t in s.tasks && 0 <= a < |s.rqs| && a != c && s.tasks[t].prio < Best(s.rqs[a])
  }

  predicate Unsuited(s: System, c: nat, t: Tid, find: Finder, pos: nat, i: nat) {
    var a := Told(s, t, find, pos, i);
    t in s.tasks && 0 <= a < |s.rqs| && a != c && Best(s.rqs[a]) <= s.tasks[t].prio
  }

  /** Of three answers the first that does not name an unsuited CPU is `dest`, which suits. */
  ghost predicate FirstThatSuits(s: System, c: nat, t: Tid, find: Finder, pos: nat, dest: nat) {
    exists j: nat | j < RT_MAX_TRIES ::
      && (forall i: nat | i < j :: Unsuited(s, c, t, find, pos, i))
      && Suits(s, c, t, find, pos, j) && Told(s, t, find, pos, j) == dest
  }

  /** Three unsuited answers, or before that none or the own CPU. */
  ghost predicate NoneSuits(s: System, c: nat, t: Tid, find: Finder, pos: nat) {
    exists j: nat | j <= RT_MAX_TRIES ::
      && (forall i: nat | i < j :: Unsuited(s, c, t, find, pos, i))
      && (j == RT_MAX_TRIES || Told(s, t, find, pos, j) == -1 || Told(s, t, find, pos, j) == c)
  }

  lemma {:induction false} QuietAfter(s: System, env: seq<Drop>, pos: nat, i: nat)
    requires Ok(s) && pos >= |env|
    ensures After(s, env, pos, i) == s
    decreases i
  {
    if i > 0 {
      QuietAfter(s, env, pos + 1, i - 1);
    }
    hide Ok;
  }

  lemma QuietTry(s: System, c: nat, t: Tid, find: Finder, env: seq<Drop>, pos: nat, i: nat)
    requires Ok(s) && pos >= |env| && t in s.tasks && Sane(find)
    ensures After(s, env, pos, i) == s && After(s, env, pos, i + 1) == s
    ensures Answer(s, t, find, env, pos, i) == Told(s, t, find, pos, i)
    ensures Suits(s, c, t, find, pos, i) <==> Reaches(s, c, t, find, env, pos, i) && Outranks(s, t, find, env, pos, i)
    ensures Unsuited(s, c, t, find, pos, i) <==> Reaches(s, c, t, find, env, pos, i) && !Outranks(s, t, find, env, pos, i)
    ensures Told(s, t, find, pos, i) == -1 || Told(s, t, find, pos, i) == c <==> !Reaches(s, c, t, find, env, pos, i)
  {
    QuietAfter(s, env, pos, i);
    QuietAfter(s, env, pos, i + 1);
    assert Answers(find, pos + i, s, t);
    hide Ok, Held, Best;
  }

  lemma QuietRefused(s: System, c: nat, t: Tid, find: Finder, env: seq<Drop>, pos: nat, s': System)
    requires Ok(s) && pos >= |env| && t in s.tasks && Sane(find) && Refused(s, c, t, find, env, pos, s')
    ensures NoneSuits(s, c, t, find, pos) && s' == s
  {
    hide Ok, Reaches, Outranks, Answer, After, Suits, Unsuited, Told, Sane, Locks;
    var j: nat :| j <= RT_MAX_TRIES && InVain(s, c, t, find, env, pos, j)
      && (j == RT_MAX_TRIES || !Reaches(s, c, t, find, env, pos, j))
      && s' == After(s, env, pos, j + if j < RT_MAX_TRIES && Locks(s, c, t, find, env, pos, j) then 1 else 0);
    QuietTry(s, c, t, find, env, pos, j);
    forall i: nat | i < j ensures Unsuited(s, c, t, find, pos, i) {
      QuietTry(s, c, t, find, env, pos, i);
    }
  }

  lemma QuietFound(s: System, c: nat, t: Tid, find: Finder, env: seq<Drop>, pos: nat, s': System, dest: nat)
    requires Ok(s) && pos >= |env| && t in s.tasks && Sane(find) && Found(s, c, t, find, env, pos, s', dest)
    ensures FirstThatSuits(s, c, t, find, pos, dest) && s' == s
  {
    hide Ok, Reaches, Outranks, Answer, After, Suits, Unsuited, Told, Sane;
    var j: nat :| j < RT_MAX_TRIES && InVain(s, c, t, find, env, pos, j)
      && Reaches(s, c, t, find, env, pos, j) && Outranks(s, t, find, env, pos, j)
      && s' == After(s, env, pos, j + 1) && dest == Answer(s, t, find, env, pos, j);
    QuietTry(s, c, t, find, env, pos, j);
    forall i: nat | i < j ensures Unsuited(s, c, t, find, pos, i) {
      QuietTry(s, c, t, find, env, pos, i);
    }
  }

  lemma NotBoth(s: System, c: nat, t: Tid, find: Finder, pos: nat, dest: nat)
    requires FirstThatSuits(s, c, t, find, pos, dest)
    ensures !NoneSuits(s, c, t, find, pos)
  {
    hide Best;
    var j: nat :| j < RT_MAX_TRIES && (forall i: nat | i < j :: Unsuited(s, c, t, find, pos, i)) && Suits(s, c, t, find, pos, j);
    if NoneSuits(s, c, t, find, pos) {
      var k: nat :| k <= RT_MAX_TRIES && (forall i: nat | i < k :: Unsuited(s, c, t, find, pos, i))
        && (k == RT_MAX_TRIES || Told(s, t, find, pos, k) == -1 || Told(s, t, find, pos, k) == c);
      FirstSuiting(s, c, t, find, pos, j, k);
      assert false;
    }
  }

  lemma FirstSuiting(s: System, c: nat, t: Tid, find: Finder, pos: nat, j: nat, k: nat)
    requires (forall i: nat | i < j :: Unsuited(s, c, t, find, pos, i)) && Suits(s, c, t, find, pos, j)
    requires forall i: nat | i < k :: Unsuited(s, c, t, find, pos, i)
    ensures k <= j && Told(s, t, find, pos, k) != -1 && Told(s, t, find, pos, k) != c
  {
    assert !Unsuited(s, c, t, find, pos, j);
    assert k < j ==> Unsuited(s, c, t, find, pos, k);
  }

  /** Undisturbed, exactly when a task is pushed, which and where. */
  lemma PushOnceIff(s: System, c: nat, overloaded: bool, find: Finder, env: seq<Drop>, pos: nat)
    requires Ok(s) && c < |s.rqs| && Sane(find) && pos >= |env|
    ensures var (s', moved, _) := PushOnce(s, c, overloaded, find, env, pos);
      && (moved <==> CanPush(s, c, overloaded, find, pos))
      && (moved ==> exists dest: nat | FirstThatSuits(s, c, s.rqs[c].pushable[0], find, pos, dest) ::
            MayPush(s, c, s.rqs[c].pushable[0], dest) && s' == Next(s, Push(c, s.rqs[c].pushable[0], dest)))
      && (!moved ==> !overloaded || s.rqs[c].pushable == [] || HeadPreempts(s, c)
                     || NoneSuits(s, c, s.rqs[c].pushable[0], find, pos))
  {
    hide Ok, Next, MayPush, Found, Refused, FirstThatSuits, NoneSuits, Search, Sane;
    if overloaded && s.rqs[c].pushable != [] {
      var t := s.rqs[c].pushable[0];
      HeadIsHeld(s, c);
      var u, p := AttemptMeans(s, c, t, find, env, pos);
      var (s', moved, _) := PushOnce(s, c, overloaded, find, env, pos);
      hide Attempt, Held;
      if moved {
        var v, dest: nat :| Found(u, c, t, find, env, p, v, dest) && Ok(v) && MayPush(v, c, t, dest) && s' == Next(v, Push(c, t, dest));
        QuietFound(s, c, t, find, env, pos, v, dest);
      } else {
        PushOnceQuiet(s, c, overloaded, find, env, pos);
        if !HeadPreempts(s, c) {
          QuietRefused(s, c, t, find, env, pos, s');
          forall dest: nat | FirstThatSuits(s, c, t, find, pos, dest) ensures false {
            NotBoth(s, c, t, find, pos, dest);
          }
        }
      }
    }
  }

  /** The state in which an undisturbed `push_rt_task` moves a task: it is overloaded, and the
      head of its pushable list does not preempt and has somewhere to go. */
  ghost predicate CanPush(s: System, c: nat, overloaded: bool, find: Finder, pos: nat) {
    && overloaded && c < |s.rqs| && s.rqs[c].pushable != [] && !HeadPreempts(s, c)
    && exists dest: nat :: FirstThatSuits(s, c, s.rqs[c].pushable[0], find, pos, dest)
  }

  lemma SameCaches(rqs: seq<RtRq>, rqs': seq<RtRq>, s: System, c: nat)
    requires Lists(rqs) == s.rqs == Lists(rqs') && c < |rqs|
    requires forall k: nat | k < |rqs| :: Cached(rqs[k], s.tasks)
    requires forall k: nat | k < |rqs'| :: Cached(rqs'[k], s.tasks)
    ensures |rqs'| == |rqs| && rqs'[c] == rqs[c]
  {
    assert Lists(rqs)[c] == rqs[c].q && Lists(rqs')[c] == rqs'[c].q;
    CachesAreDetermined(rqs[c], rqs'[c], s.tasks);
  }

  /** A push takes exactly the head off the source's pushable list. */
  lemma PushShrinks(s: System, c: nat, t: Tid, dest: nat)
    requires Ok(s) && MayPush(s, c, t, dest) && s.rqs[c].pushable != [] && s.rqs[c].pushable[0] == t
    ensures Next(s, Push(c, t, dest)).rqs[c].pushable == s.rqs[c].pushable[1..]
  {
    HeldIsQueued(s, c, t);
  }

  /** `push_rt_task`.  The assertion in the loop is the source's WARN_ON. */
  method PushRtTask(m: RtScheduler, c: nat, find: Finder, env: seq<Drop>, pos0: nat) returns (moved: bool, pos: nat)
    requires m.Valid() && c < m.rq.Length && Sane(find)
    modifies m, m.rq
    ensures m.Valid()
    ensures (m.Abs(), moved, pos) == PushOnce(old(m.Abs()), c, old(m.rq[c].overloaded), find, env, pos0)
    ensures env == [] ==> (moved <==> CanPush(old(m.Abs()), c, old(m.rq[c].overloaded), find, pos0))
  {
    if env == [] {
      PushOnceIff(m.Abs(), c, m.rq[c].overloaded, find, env, pos0);
    }
    hide CanPush;
    moved, pos := false, pos0;
    if !m.rq[c].overloaded {
      return;
    }
    var next := PickNextPushableTask(m, c);
    if next.None? {
      return;
    }
    moved, pos := TryPush(m, c, next.value, find, env, pos0);
  }

  method TryPush(m: RtScheduler, c: nat, t0: Tid, find: Finder, env: seq<Drop>, pos0: nat) returns (moved: bool, pos: nat)
    requires m.Valid() && c < m.rq.Length && Sane(find) && m.rq[c].q.pushable != [] && m.rq[c].q.pushable[0] == t0
    modifies m, m.rq
    ensures m.Valid() && (m.Abs(), moved, pos) == Attempt(old(m.Abs()), c, t0, find, env, pos0)
  {
    hide Ok, Queued, Cached, MaskOk, PriOk, Search, Sane, Next, MayPush;
    var t := t0;
    pos := pos0;
    while true
      invariant m.Valid() && m.rq[c].q.pushable != [] && m.rq[c].q.pushable[0] == t
      invariant Attempt(m.Abs(), c, t, find, env, pos) == Attempt(old(m.Abs()), c, t0, find, env, pos0)
      decreases if pos < |env| then |env| - pos else 0
    {
      ghost var s := m.Abs();
      PushedIsHere(s, c);
      HeadIsHeld(s, c);
      assert t != m.rq[c].q.curr;
      if m.tasks[t].prio < m.tasks[m.rq[c].q.curr].prio {
        return false, pos;
      }
      assert Probe(s, c, t, find, env, pos) == Search(s, c, t, find, env, pos, 0);
      var dest, pos1 := FindLockLowestRq(m, c, t, find, env, pos);
      if dest.Some? {
        DoStep(m, Push(c, t, dest.value));
        return true, pos1;
      }
      var again := PickNextPushableTask(m, c);
      if again.None? || again.value == t {
        return false, pos1;
      }
      t, pos := again.value, pos1;
    }
  }

  /** `push_rt_tasks`: it ends, however the others disturb it, since they do so finitely often
      and each push on its own shortens the pushable list.  It is a run of steps of the others
      and `mine` pushes, and it ends with nothing to push or nowhere to push it.  Undisturbed,
      these are all, each took the head off the list, and there is one exactly if the state at
      the start allows it. */
  method PushRtTasks(m: RtScheduler, c: nat, find: Finder, env: seq<Drop>)
      returns (ghost steps: seq<Step>, ghost mine: nat, pos: nat)
    requires m.Valid() && c < m.rq.Length && Sane(find)
    modifies m, m.rq
    ensures m.Valid() && Trace(old(m.Abs()), steps, m.Abs(), c, env, mine)
    ensures !m.rq[c].overloaded || exists u, p: nat :: Leaves(u, c, find, env, p, m.Abs())
    ensures env == [] ==> mine <= |old(m.rq[c].q.pushable)| && m.rq[c].q.pushable == old(m.rq[c].q.pushable)[mine..]
    ensures env == [] ==> (mine > 0 <==> CanPush(old(m.Abs()), c, old(m.rq[c].overloaded), find, 0))
    ensures env == [] ==> !m.rq[c].overloaded || m.rq[c].q.pushable == [] || HeadPreempts(m.Abs(), c)
                          || NoneSuits(m.Abs(), c, m.rq[c].q.pushable[0], find, pos)
  {
    hide Ok, Cached, MaskOk, PriOk, Trace, Attempt, CanPush, NoneSuits, HeadPreempts, Leaves;
    ghost var s0, overloaded0 := m.Abs(), m.rq[c].overloaded;
    NoSteps(s0, c, env);
    steps, mine, pos := [], 0, 0;
    while true
      invariant m.Valid() && Trace(s0, steps, m.Abs(), c, env, mine)
      invariant env == [] ==> mine <= |s0.rqs[c].pushable| && m.rq[c].q.pushable == s0.rqs[c].pushable[mine..]
      invariant mine == 0 ==> m.Abs() == s0 && m.rq[c].overloaded == overloaded0 && pos == 0
      invariant env == [] && mine > 0 ==> CanPush(s0, c, overloaded0, find, 0)
      decreases if pos < |env| then |env| - pos else 0, |m.rq[c].q.pushable|
    {
      ghost var s, rqs, overloaded := m.Abs(), m.rq[..], m.rq[c].overloaded;
      var moved, pos1 := PushRtTask(m, c, find, env, pos);
      var more := PushOnceTrace(s, c, overloaded, find, env, pos);
      TraceOn(s0, steps, s, more, m.Abs(), c, env, mine, if moved then 1 else 0);
      PushOnceQuiet(s, c, overloaded, find, env, pos);
      steps := steps + more;
      if !moved {
        if env == [] {
          SameCaches(rqs, m.rq[..], s, c);
          PushOnceIff(s, c, overloaded, find, env, pos);
        }
        if overloaded {
          PushOnceLeaves(s, c, overloaded, find, env, pos);
        }
        assert !overloaded ==> m.Abs() == s;
        if !overloaded {
          SameCaches(rqs, m.rq[..], s, c);
        }
        break;
      }
      mine := mine + 1;
      PushOnceSearches(s, c, s.rqs[c].pushable[0], find, env, pos);
      pos := pos1;
    }
  }

  lemma PushOnceLeaves(s: System, c: nat, overloaded: bool, find: Finder, env: seq<Drop>, pos: nat)
    requires Ok(s) && c < |s.rqs| && Sane(find) && overloaded && !PushOnce(s, c, overloaded, find, env, pos).1
    ensures exists u, p: nat :: Leaves(u, c, find, env, p, PushOnce(s, c, overloaded, find, env, pos).0)
  {
    hide Ok, Attempt, Refused;
    if s.rqs[c].pushable == [] {
      assert Leaves(s, c, find, env, pos, s);
    } else {
      var u, p := AttemptMeans(s, c, s.rqs[c].pushable[0], find, env, pos);
    }
  }

  // ---------------------------------------------------------------------------
  // pulling
  // ---------------------------------------------------------------------------

  /** `pick_rt_task` for an entry of `q`; a negative `cpu` means any. */
  predicate Eligible(q: Rq, tasks: Tasks, t: Tid, cpu: int) {
    Pushable(q, tasks, t) && (cpu < 0 || cpu in tasks[t].allowed)
  }

  /** `next` is the most urgent eligible task, the longest waiting one of its level. */
  predicate IsNextHighest(q: Rq, tasks: Tasks, cpu: int, next: Option<Tid>) {
    match next
    case None => forall t <- tasks :: !Eligible(q, tasks, t, cpu)
    case Some(p) =>
      && Eligible(q, tasks, p, cpu)
      && (forall t <- tasks :: Eligible(q, tasks, t, cpu) ==> tasks[p].prio <= tasks[t].prio)
      && var queue := q.queues[tasks[p].prio];
         exists k: nat | k < |queue| :: queue[k] == p && forall j: nat | j < k :: !Eligible(q, tasks, queue[j], cpu)
  }

  predicate NoneAbove(q: Rq, tasks: Tasks, cpu: int, idx: nat) {
    forall t <- tasks :: Eligible(q, tasks, t, cpu) ==> idx <= tasks[t].prio
  }

  /** The walk over one level. */
  method FirstEligible(q: Rq, tasks: Tasks, c: nat, idx: nat, cpu: int) returns (next: Option<Tid>)
    requires QueuesOk(q, tasks, c) && idx < MAX_RT_PRIO && NoneAbove(q, tasks, cpu, idx)
    ensures next.Some? ==> IsNextHighest(q, tasks, cpu, next)
    ensures next.None? ==> NoneAbove(q, tasks, cpu, idx + 1)
  {
    var queue := q.queues[idx];
    assert QueueOk(queue, tasks, c, idx);
    for k: nat := 0 to |queue|
      invariant forall j: nat | j < k :: !Eligible(q, tasks, queue[j], cpu)
    {
      var p := queue[k];
      assert p in queue;
      if p != q.curr && (cpu < 0 || cpu in tasks[p].allowed) && |tasks[p].allowed| > 1 {
        return Some(p);
      }
    }
    next := None;
  }

  /** `pick_next_highest_task_rt`. */
  method PickNextHighestTaskRt(m: RtScheduler, c: nat, cpu: int) returns (next: Option<Tid>)
    requires m.Valid() && c < m.rq.Length
    ensures IsNextHighest(m.rq[c].q, m.tasks, cpu, next)
  {
    AllLocal(m.rq[..], m.tasks, c);
    hide PushOk, Counts, NextCached, MaskOk, PriOk, QueueOk, Ok;
    var q, bitmap := m.rq[c].q, m.rq[c].bitmap;
    var idx := FindNextBit(bitmap, 0);
    LevelsSkipped(q, bitmap, m.tasks, c, cpu, 0, idx);
    while idx < MAX_RT_PRIO
      invariant idx <= MAX_RT_PRIO && NoneAbove(q, m.tasks, cpu, idx)
      decreases MAX_RT_PRIO - idx
    {
      next := FirstEligible(q, m.tasks, c, idx, cpu);
      if next.Some? {
        return;
      }
      var from := idx + 1;
      idx := FindNextBit(bitmap, from);
      LevelsSkipped(q, bitmap, m.tasks, c, cpu, from, idx);
    }
    NoneLeft(q, m.tasks, c, cpu);
    next := None;
  }

  lemma LevelsSkipped(q: Rq, bitmap: seq<bool>, tasks: Tasks, c: nat, cpu: int, from: nat, idx: nat)
    requires QueuesOk(q, tasks, c) && Bits(q.queues, bitmap) && from <= idx <= MAX_RT_PRIO
    requires forall i: nat | from <= i < idx :: !bitmap[i]
    requires from == 0 || NoneAbove(q, tasks, cpu, from)
    ensures NoneAbove(q, tasks, cpu, idx)
  {
  }

  lemma NoneLeft(q: Rq, tasks: Tasks, c: nat, cpu: int)
    requires QueuesOk(q, tasks, c) && NoneAbove(q, tasks, cpu, MAX_RT_PRIO)
    ensures IsNextHighest(q, tasks, cpu, None)
  {
  }

  /** Nothing more to pull from `src`: what could come here is no better than what is here,
      or its best is about to preempt its own CPU. */
  ghost predicate PullSettled(s: System, c: nat, src: nat)
    requires c < |s.rqs| && src < |s.rqs|
  {
    var q := s.rqs[src];
    || (forall t <- s.tasks :: Eligible(q, s.tasks, t, c) ==> Best(s.rqs[c]) <= s.tasks[t].prio)
    || (exists t <- s.tasks :: Eligible(q, s.tasks, t, c) && q.curr in s.tasks && s.tasks[t].prio < s.tasks[q.curr].prio)
  }

  /** Skipping a queue by its cached next priority, without looking at it, misses nothing. */
  lemma SkipMissesNothing(s: System, c: nat, src: nat, r: RtRq)
    requires Ok(s) && c < |s.rqs| && src < |s.rqs|
    requires r.q == s.rqs[src] && Cached(r, s.tasks) && r.hpNext >= Best(s.rqs[c])
    ensures PullSettled(s, c, src)
  {
  }

  /** The decision for one queue, with both locks held. */
  method ChoosePull(m: RtScheduler, c: nat, src: nat) returns (taken: Option<Tid>)
    requires m.Valid() && c < m.rq.Length && src < m.rq.Length && src != c
    ensures taken.Some? ==> MayPull(m.Abs(), c, src, taken.value)
                            && IsNextHighest(m.rq[src].q, m.tasks, c, taken)
    ensures taken.None? ==> PullSettled(m.Abs(), c, src) || m.rq[src].nrRunning <= 1
  {
    AllLocal(m.rq[..], m.tasks, src);
    hide Ok, Pushable, QueuesOk, PushOk, MaskOk, PriOk, Best, Bits;
    taken := None;
    if m.rq[src].nrRunning <= 1 {
      return;
    }
    var p := PickNextHighestTaskRt(m, src, c);
    if p.Some? && m.tasks[p.value].prio < m.rq[c].hpCurr {
      EligibleIsNotRunning(m.rq[src].q, m.tasks, p.value, c);
      assert p.value != m.rq[src].q.curr;
      if !(m.tasks[p.value].prio < m.tasks[m.rq[src].q.curr].prio) {
        taken := p;
      }
    }
  }

  lemma EligibleIsNotRunning(q: Rq, tasks: Tasks, t: Tid, cpu: int)
    requires Eligible(q, tasks, t, cpu)
    ensures t in tasks && t != q.curr
  {
  }

  /** After taking the best eligible task nothing better is left. */
  lemma PulledSettles(s: System, c: nat, src: nat, t: Tid)
    requires Ok(s) && MayPull(s, c, src, t) && IsNextHighest(s.rqs[src], s.tasks, c, Some(t))
    ensures var s' := Next(s, Pull(c, src, t));
      Ok(s') && |s'.rqs| == |s.rqs| && Best(s'.rqs[c]) == s.tasks[t].prio && PullSettled(s', c, src)
  {
    PulledIsQueued(s, src, t);
    NextKeeps(s, Pull(c, src, t));
    var s' := Next(s, Pull(c, src, t));
    PulledBest(s, c, src, t);
    forall u <- s'.tasks | Eligible(s'.rqs[src], s'.tasks, u, c) ensures Best(s'.rqs[c]) <= s'.tasks[u].prio {
      QueuedIsHere(s', src, u);
      assert u != t;
      EligibleBefore(s, c, src, t, u);
    }
  }

  lemma PulledBest(s: System, c: nat, src: nat, t: Tid)
    requires Ok(s) && MayPull(s, c, src, t)
    ensures Best(Next(s, Pull(c, src, t)).rqs[c]) == s.tasks[t].prio
  {
    PulledIsQueued(s, src, t);
    TableUnchanged(s, t, c);
    EnqueueBest(s.rqs[c], s.tasks[t := s.tasks[t].(cpu := c)], c, t);
  }

  lemma EligibleBefore(s: System, c: nat, src: nat, t: Tid, u: Tid)
    requires Ok(s) && MayPull(s, c, src, t) && u != t
    requires Eligible(Next(s, Pull(c, src, t)).rqs[src], Next(s, Pull(c, src, t)).tasks, u, c)
    ensures Eligible(s.rqs[src], s.tasks, u, c)
  {
    PulledIsQueued(s, src, t);
    assert RqOk(s.rqs[src], s.tasks, src);
    DequeueKeeps(s.rqs[src], s.tasks, src, t);
    var s' := Next(s, Pull(c, src, t));
    assert s'.rqs[src] == DequeueRq(s.rqs[src], s.tasks, t);
    assert s'.tasks[u] == s.tasks[u];
    assert Queued(s'.rqs[src], s.tasks, u);
  }

  /** Pulling elsewhere leaves a settled queue settled. */
  lemma PulledKeepsSettled(s: System, c: nat, src: nat, t: Tid, k: nat)
    requires Ok(s) && MayPull(s, c, src, t) && k < |s.rqs| && k != src && k != c && PullSettled(s, c, k)
    ensures var s' := Next(s, Pull(c, src, t));
      Ok(s') && |s'.rqs| == |s.rqs| && PullSettled(s', c, k)
  {
    PulledIsQueued(s, src, t);
    NextKeeps(s, Pull(c, src, t));
    PulledBest(s, c, src, t);
    var s' := Next(s, Pull(c, src, t));
    assert s'.rqs[k] == s.rqs[k];
    assert RqOk(s.rqs[k], s.tasks, k);
    if Queued(s.rqs[k], s.tasks, t) {
      QueuedIsHere(s, k, t);
      assert false;
    }
    if Queued(s'.rqs[k], s'.tasks, t) {
      QueuedIsHere(s', k, t);
      assert false;
    }
    assert forall u :: Eligible(s'.rqs[k], s'.tasks, u, c) <==> Eligible(s.rqs[k], s.tasks, u, c);
  }

  function Pulled(s: System, c: nat, src: nat, taken: Option<Tid>): (s': System)
    requires Ok(s) && (taken.Some? ==> MayPull(s, c, src, taken.value))
    ensures Ok(s') && |s'.rqs| == |s.rqs|
  {
    if taken.None? then s
    else
      NextKeeps(s, Pull(c, src, taken.value));
      Next(s, Pull(c, src, taken.value))
  }

  lemma PulledNothing(s: System, c: nat, src: nat)
    requires Ok(s)
    ensures Pulled(s, c, src, None) == s
  {
  }

  /** One round of `pull_rt_task`: look at the cached next priority, and if that promises
      something, lock, decide and move.  `held` is the state in which it decided. */
  method PullFrom(m: RtScheduler, c: nat, src: nat, drop: Drop)
      returns (locked: bool, taken: Option<Tid>, ghost held: System)
    requires m.Valid() && c < m.rq.Length && src < m.rq.Length && src != c
    modifies m, m.rq
    ensures m.Valid() && held == (if locked then Disturbed(old(m.Abs()), drop) else old(m.Abs()))
    ensures taken.Some? ==> locked && MayPull(held, c, src, taken.value)
    ensures m.Abs() == Pulled(held, c, src, taken)
    ensures drop.Kept? && taken.None? ==> m.rq[..] == old(m.rq[..])
    ensures drop.Kept? && taken.None? && old(m.rq[src].overloaded) ==> PullSettled(m.Abs(), c, src)
    ensures drop.Kept? && taken.Some? ==>
      && IsNextHighest(held.rqs[src], held.tasks, c, taken)
      && forall k: nat | k < m.rq.Length && k != c && k != src :: m.rq[k] == old(m.rq[k])
  {
    held := m.Abs();
    locked, taken := false, None;
    if m.rq[src].hpNext >= m.rq[c].hpCurr {
      SkipMissesNothing(held, c, src, m.rq[src]);
      return;
    }
    locked := true;
    ghost var rqs := m.rq[..];
    hide Ok, PullSettled, MayPull, IsNextHighest, NextCached, Bits, MaskOk, PriOk, Move, Best, Disturbed;
    DoubleLock(m, drop);
    held := m.Abs();
    DisturbedKept(old(m.Abs()));
    taken := ChoosePull(m, c, src);
    if taken.Some? {
      PulledFacts(held, c, src, taken.value);
      MoveTask(m, taken.value, c);
    }
  }

  lemma DisturbedKept(s: System)
    requires Ok(s)
    ensures Disturbed(s, Kept) == s
  {
  }

  /** How far an undisturbed pull has come: the queues before `cpu` are settled, those from it
      on are as they were, and each pull has improved the best priority. */
  ghost predicate Pulling(was: seq<RtRq>, mask: set<nat>, rqs: seq<RtRq>, s0: System, s: System, mine: nat, c: nat, cpu: nat) {
    && c < |s0.rqs| && |was| == |rqs| == |s.rqs| == |s0.rqs| && cpu <= |rqs|
    && Best(s.rqs[c]) + mine <= Best(s0.rqs[c])
    && (forall k: nat | cpu <= k < |rqs| && k != c :: rqs[k] == was[k])
    && (forall k: nat | k < cpu && k in mask && k != c :: PullSettled(s, c, k))
  }

  lemma PullingTakes(was: seq<RtRq>, mask: set<nat>, rqs: seq<RtRq>, rqs': seq<RtRq>, s0: System, s: System, mine: nat,
                     c: nat, cpu: nat, t: Tid)
    requires Pulling(was, mask, rqs, s0, s, mine, c, cpu) && cpu < |rqs| && |rqs'| == |rqs| && Ok(s)
    requires MayPull(s, c, cpu, t) && IsNextHighest(s.rqs[cpu], s.tasks, c, Some(t))
    requires forall k: nat | k < |rqs| && k != c && k != cpu :: rqs'[k] == rqs[k]
    ensures Pulling(was, mask, rqs', s0, Pulled(s, c, cpu, Some(t)), mine + 1, c, cpu + 1)
  {
    hide Ok, Next, MayPull, IsNextHighest, PullSettled, Best;
    PulledSettles(s, c, cpu, t);
    PullImproves(s, c, cpu, t);
    forall k: nat | k < cpu && k in mask && k != c ensures PullSettled(Next(s, Pull(c, cpu, t)), c, k) {
      PulledKeepsSettled(s, c, cpu, t, k);
    }
  }

  lemma PullImproves(s: System, c: nat, src: nat, t: Tid)
    requires Ok(s) && MayPull(s, c, src, t)
    ensures c < |s.rqs| && src < |s.rqs| && t in s.tasks && s.tasks[t].prio < Best(s.rqs[c])
  {
  }

  lemma PullTrace(s0: System, steps: seq<Step>, s: System, c: nat, env: seq<Drop>, mine: nat,
                  pos: nat, locked: bool, src: nat, taken: Option<Tid>) returns (steps': seq<Step>)
    requires Ok(s) && Trace(s0, steps, s, c, env, mine)
    requires var held := if locked then Disturbed(s, At(env, pos)) else s;
      taken.Some? ==> MayPull(held, c, src, taken.value)
    ensures var held := if locked then Disturbed(s, At(env, pos)) else s;
      Trace(s0, steps', Pulled(held, c, src, taken), c, env, mine + if taken.Some? then 1 else 0)
  {
    hide Ok, Trace, MayPull, Next, Disturbed, At;
    steps' := steps;
    var held := s;
    if locked {
      held := Disturbed(s, At(env, pos));
      var others := DropTrace(s, c, env, pos);
      TraceOn(s0, steps, s, others, held, c, env, mine, 0);
      steps' := steps + others;
    }
    if taken.Some? {
      var step := Pull(c, src, taken.value);
      OneOwn(held, step, c, env);
      TraceOn(s0, steps', held, [step], Next(held, step), c, env, mine, 1);
      steps' := steps' + [step];
    }
  }

  /** `pull_rt_task`: a run of steps of the others and `mine` pulls, each of which improves the
      best priority here at the time.  Undisturbed, these are all, and afterwards no CPU that
      was overloaded at the start has anything more for this one. */
  method PullRtTask(m: RtScheduler, c: nat, env: seq<Drop>) returns (pulled: bool, ghost steps: seq<Step>, ghost mine: nat)
    requires m.Valid() && c < m.rq.Length
    modifies m, m.rq
    ensures m.Valid() && Trace(old(m.Abs()), steps, m.Abs(), c, env, mine)
    ensures pulled <==> mine > 0
    ensures env == [] ==> Best(m.rq[c].q) + mine <= Best(old(m.rq[c].q))
    ensures env == [] ==>
      forall k: nat | k in old(m.rtoMask) && k != c :: k < m.rq.Length && PullSettled(m.Abs(), c, k)
  {
    hide Ok, PullSettled, MayPull, IsNextHighest, Cached, PriOk, Trace, Pulled, Best, Disturbed;
    ghost var s0, was, mask := m.Abs(), m.rq[..], m.rtoMask;
    NoSteps(s0, c, env);
    pulled, steps, mine := false, [], 0;
    if m.rtoCount == 0 {
      return;
    }
    var cpu: nat, pos: nat := 0, 0;
    while cpu < m.rq.Length
      invariant cpu <= m.rq.Length && m.Valid()
      invariant Trace(s0, steps, m.Abs(), c, env, mine) && (pulled <==> mine > 0)
      invariant env == [] ==> Pulling(was, mask, m.rq[..], s0, m.Abs(), mine, c, cpu)
    {
      if cpu in m.rtoMask && cpu != c {
        ghost var s, rqs := m.Abs(), m.rq[..];
        var locked, taken, held := PullFrom(m, c, cpu, At(env, pos));
        steps := PullTrace(s0, steps, s, c, env, mine, pos, locked, cpu, taken);
        if taken.Some? {
          if env == [] {
            DisturbedKept(s);
            PullingTakes(was, mask, rqs, m.rq[..], s0, s, mine, c, cpu, taken.value);
          }
          pulled, mine := true, mine + 1;
        } else {
          DisturbedKept(s);
          assert Pulled(held, c, cpu, None) == held by {
            PulledNothing(held, c, cpu);
          }
        }
        if locked {
          pos := pos + 1;
        }
      }
      cpu := cpu + 1;
    }
  }

  lemma PulledFacts(s: System, c: nat, src: nat, t: Tid)
    requires Ok(s) && MayPull(s, c, src, t)
    ensures c < |s.rqs| && src < |s.rqs| && c != src
    ensures OnRq(s, t) && t != Home(s, t).curr && s.tasks[t].cpu == src && s.tasks[t].prio < MAX_RT_PRIO
    ensures Next(s, Pull(c, src, t)) == Move(s, t, c)
  {
    PulledIsQueued(s, src, t);
    QueuedIsHere(s, src, t);
  }
}
