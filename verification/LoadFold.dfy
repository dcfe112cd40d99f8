/** The distributed load count: CPUs fold the change of their own count into a global sum,
    idle CPUs into one of two side counters, and one CPU drains a side counter and averages.

    Every atomic add is a step of its own, so a delta that a CPU has computed but not yet
    added is part of the state. */
module LoadFold {
  import FixedPoint

  /** A delta on its way: computed, and for an idle CPU then with the index it has read, and
      aimed at a side counter. */
  datatype Flight = Nothing | Folded(delta: int, idle: bool) | Read(delta: int, seen: nat) | Aimed(delta: int, idx: nat)

  /** The fields of a run queue that take part. */
  datatype Cpu = Cpu(nrRunning: int, nrUninterruptible: int, active: int, update: int, flight: Flight)

  /** Where the CPU that runs `calc_global_load` is in it. */
  datatype Phase = Resting | Entered | Taken(delta: int) | Added | Averaged | CaughtUp

  datatype State = State(cpus: seq<Cpu>, tasks: int, idle: seq<int>, idx: nat, update: int, jiffies: int,
                         avenrun: seq<nat>, phase: Phase)

  /** `LOAD_FREQ` at `hz` ticks a second. */
  function Freq(hz: nat): nat {
    5 * hz + 1
  }

  const EXPS: seq<nat> := [FixedPoint.EXP_1, FixedPoint.EXP_5, FixedPoint.EXP_15]

  // ---------------------------------------------------------------------------
  // steps
  // ---------------------------------------------------------------------------

  /** `calc_load_fold_active`. */
  function Fold(c: Cpu): (Cpu, int) {
    var now := c.nrRunning + c.nrUninterruptible;
    (c.(active := now), now - c.active)
  }

  /** `calc_load_write_idx` reads the index first, and then the time of the update; and
      `calc_load_read_idx`. */
  function WriteIdx(s: State, seen: nat): nat {
    if s.jiffies < s.update then seen % 2 else (seen + 1) % 2
  }

  function ReadIdx(s: State): nat {
    s.idx % 2
  }

  /** The fixed-point count that the averages move towards. */
  function Target(tasks: int): nat {
    if tasks > 0 then tasks * 2048 else 0
  }

  function AverageOnce(avenrun: seq<nat>, target: nat): seq<nat>
    requires |avenrun| == 3
  {
    seq(3, i requires 0 <= i < 3 => FixedPoint.CalcLoad(avenrun[i], EXPS[i], target))
  }

  function AverageMany(avenrun: seq<nat>, target: nat, n: nat): seq<nat>
    requires |avenrun| == 3
  {
    seq(3, i requires 0 <= i < 3 => FixedPoint.CalcLoadN(avenrun[i], EXPS[i], target, n))
  }

  /** Periods of `freq` ticks that have begun after the window of `update`. */
  function Behind(jiffies: int, update: int, freq: nat): nat
    requires freq > 0 && jiffies >= update + 10
  {
    1 + (jiffies - update - 10) / freq
  }

  datatype Step =
    | Work(cpu: nat, nrRunning: int, nrUninterruptible: int)
    | TickFold(cpu: nat)
    | TickAdd(cpu: nat)
    | IdleFold(cpu: nat)
    | IdleRead(cpu: nat)
    | IdleAim(cpu: nat)
    | IdleAdd(cpu: nat)
    | ExitIdle(cpu: nat)
    | Remove(cpu: nat)
    | Prepare(cpu: nat)
    | DoTimer(ticks: nat)
    | GlobalSkip
    | GlobalTake
    | GlobalAdd
    | GlobalAverage
    | GlobalCatchUp
    | GlobalFlip

  predicate Enabled(s: State, step: Step) {
    match step
    case Work(c, _, _) => c < |s.cpus|
    case TickFold(c) => c < |s.cpus| && s.cpus[c].flight.Nothing? && s.jiffies >= s.cpus[c].update
    case TickAdd(c) => c < |s.cpus| && s.cpus[c].flight.Folded? && !s.cpus[c].flight.idle
    case IdleFold(c) => c < |s.cpus| && s.cpus[c].flight.Nothing?
    case IdleRead(c) => c < |s.cpus| && s.cpus[c].flight.Folded? && s.cpus[c].flight.idle
    case IdleAim(c) => c < |s.cpus| && s.cpus[c].flight.Read?
    case IdleAdd(c) => c < |s.cpus| && s.cpus[c].flight.Aimed? && s.cpus[c].flight.idx < 2
    case ExitIdle(c) => c < |s.cpus| && s.cpus[c].flight.Nothing?
    case Remove(c) => c < |s.cpus| && s.cpus[c].flight.Nothing?
    case Prepare(c) => c < |s.cpus| && s.cpus[c].flight.Nothing?
    case DoTimer(_) => s.phase.Resting?
    case GlobalSkip => s.phase.Entered? && s.jiffies < s.update + 10
    case GlobalTake => s.phase.Entered? && s.jiffies >= s.update + 10
    case GlobalAdd => s.phase.Taken?
    case GlobalAverage => s.phase.Added?
    case GlobalCatchUp => s.phase.Averaged?
    case GlobalFlip => s.phase.CaughtUp?
  }

  predicate Shaped(s: State) {
    |s.idle| == 2 && |s.avenrun| == 3
  }

  function SetCpu(s: State, c: nat, cpu: Cpu): State
    requires c < |s.cpus|
  {
    s.(cpus := s.cpus[c := cpu])
  }

  function Next(hz: nat, s: State, step: Step): (r: State)
    requires Shaped(s) && Enabled(s, step)
    ensures Shaped(r)
  {
    match step
    case Work(c, r, u) => SetCpu(s, c, s.cpus[c].(nrRunning := r, nrUninterruptible := u))
    case TickFold(c) =>
      var (cpu, delta) := Fold(s.cpus[c]);
      if delta != 0 then SetCpu(s, c, cpu.(flight := Folded(delta, false)))
      else SetCpu(s, c, cpu.(update := cpu.update + Freq(hz)))
    case TickAdd(c) =>
      var cpu := s.cpus[c];
      SetCpu(s, c, cpu.(flight := Nothing, update := cpu.update + Freq(hz))).(tasks := s.tasks + cpu.flight.delta)
    case IdleFold(c) =>
      var (cpu, delta) := Fold(s.cpus[c]);
      SetCpu(s, c, if delta != 0 then cpu.(flight := Folded(delta, true)) else cpu)
    case IdleRead(c) => SetCpu(s, c, s.cpus[c].(flight := Read(s.cpus[c].flight.delta, s.idx)))
    case IdleAim(c) =>
      var f := s.cpus[c].flight;
      SetCpu(s, c, s.cpus[c].(flight := Aimed(f.delta, WriteIdx(s, f.seen))))
    case IdleAdd(c) =>
      var f := s.cpus[c].flight;
      SetCpu(s, c, s.cpus[c].(flight := Nothing)).(idle := s.idle[f.idx := s.idle[f.idx] + f.delta])
    case ExitIdle(c) => SetCpu(s, c, s.cpus[c].(update := ExitUpdate(hz, s, s.cpus[c].update)))
    case Remove(c) => SetCpu(s, c, s.cpus[c].(active := 0)).(tasks := s.tasks - s.cpus[c].active)
    case Prepare(c) => SetCpu(s, c, s.cpus[c].(update := s.update))
    case DoTimer(ticks) => s.(jiffies := s.jiffies + ticks, phase := Entered)
    case GlobalSkip => s.(phase := Resting)
    case GlobalTake => s.(idle := s.idle[ReadIdx(s) := 0], phase := Taken(s.idle[ReadIdx(s)]))
    case GlobalAdd => s.(tasks := s.tasks + s.phase.delta, phase := Added)
    case GlobalAverage =>
      s.(avenrun := AverageOnce(s.avenrun, Target(s.tasks)), update := s.update + Freq(hz), phase := Averaged)
    case GlobalCatchUp =>
      if s.jiffies < s.update + 10 then s.(phase := CaughtUp)
      else
        var n := Behind(s.jiffies, s.update, Freq(hz));
        s.(avenrun := AverageMany(s.avenrun, Target(s.tasks), n), update := s.update + n * Freq(hz), phase := CaughtUp)
    case GlobalFlip => s.(idx := s.idx + 1, phase := Resting)
  }

  /** `calc_load_exit_idle`. */
  function ExitUpdate(hz: nat, s: State, update: int): int {
    if s.jiffies < update then update
    else if s.jiffies < s.update + 10 then s.update + Freq(hz)
    else s.update
  }

  // ---------------------------------------------------------------------------
  // conservation
  // ---------------------------------------------------------------------------

  function InFlight(c: Cpu): int {
    match c.flight
    case Nothing => 0
    case Folded(delta, _) => delta
    case Read(delta, _) => delta
    case Aimed(delta, _) => delta
  }

  function SumActive(cpus: seq<Cpu>): int {
    if cpus == [] then 0 else cpus[0].active + SumActive(cpus[1..])
  }

  function SumInFlight(cpus: seq<Cpu>): int {
    if cpus == [] then 0 else InFlight(cpus[0]) + SumInFlight(cpus[1..])
  }

  lemma {:induction false} SumsUpdate(cpus: seq<Cpu>, c: nat, cpu: Cpu)
    requires c < |cpus|
    ensures SumActive(cpus[c := cpu]) == SumActive(cpus) - cpus[c].active + cpu.active
    ensures SumInFlight(cpus[c := cpu]) == SumInFlight(cpus) - InFlight(cpus[c]) + InFlight(cpu)
  {
    if c == 0 {
      assert cpus[0 := cpu][1..] == cpus[1..];
    } else {
      SumsUpdate(cpus[1..], c - 1, cpu);
      assert cpus[c := cpu][1..] == cpus[1..][c - 1 := cpu];
    }
  }

  function Drained(phase: Phase): int {
    if phase.Taken? then phase.delta else 0
  }

  /** What the CPUs have counted is in the global sum, in a side counter, or on its way. */
  predicate Balanced(s: State) {
    Shaped(s) && s.tasks + s.idle[0] + s.idle[1] + SumInFlight(s.cpus) + Drained(s.phase) == SumActive(s.cpus)
  }

  /** Outside `calc_global_load` the window of the next update has not passed. */
  predicate OnTime(s: State) {
    s.phase.Resting? || s.phase.CaughtUp? ==> s.jiffies < s.update + 10
  }

  predicate Aims(s: State) {
    forall c: nat | c < |s.cpus| && s.cpus[c].flight.Aimed? :: s.cpus[c].flight.idx < 2
  }

  predicate Inv(s: State) {
    Balanced(s) && OnTime(s) && Aims(s)
  }

  function StepCpu(step: Step): nat {
    match step
    case Work(c, _, _) => c
    case TickFold(c) => c
    case TickAdd(c) => c
    case IdleFold(c) => c
    case IdleRead(c) => c
    case IdleAim(c) => c
    case IdleAdd(c) => c
    case ExitIdle(c) => c
    case Remove(c) => c
    case Prepare(c) => c
    case _ => 0
  }

  predicate IsGlobal(step: Step) {
    step.DoTimer? || step.GlobalSkip? || step.GlobalTake? || step.GlobalAdd? || step.GlobalAverage?
    || step.GlobalCatchUp? || step.GlobalFlip?
  }

  lemma CpuStepKeeps(hz: nat, s: State, step: Step)
    requires Inv(s) && Enabled(s, step) && !IsGlobal(step)
    ensures Inv(Next(hz, s, step))
  {
    var s' := Next(hz, s, step);
    var c := StepCpu(step);
    assert s'.cpus == s.cpus[c := s'.cpus[c]];
    SumsUpdate(s.cpus, c, s'.cpus[c]);
  }

  lemma GlobalStepKeeps(hz: nat, s: State, step: Step)
    requires Inv(s) && Enabled(s, step) && IsGlobal(step)
    ensures Inv(Next(hz, s, step))
  {
    if step.GlobalCatchUp? && s.jiffies >= s.update + 10 {
      CaughtUpFits(s.jiffies, s.update, Freq(hz));
    }
    hide SumActive, SumInFlight, AverageOnce, AverageMany;
  }

  predicate IsRun(hz: nat, states: seq<State>, steps: seq<Step>) {
    && |states| == |steps| + 1
    && forall k: nat | k < |steps| :: Shaped(states[k]) && Enabled(states[k], steps[k])
                                      && states[k + 1] == Next(hz, states[k], steps[k])
  }

  /** Under every interleaving the counts balance, and the global update is never late. */
  lemma {:induction false} RunInv(hz: nat, states: seq<State>, steps: seq<Step>, n: nat)
    requires IsRun(hz, states, steps) && Inv(states[0]) && n < |states|
    ensures Inv(states[n])
  {
    if n > 0 {
      RunInv(hz, states, steps, n - 1);
      if IsGlobal(steps[n - 1]) {
        GlobalStepKeeps(hz, states[n - 1], steps[n - 1]);
      } else {
        CpuStepKeeps(hz, states[n - 1], steps[n - 1]);
      }
    }
  }

  /** `sched_init`. */
  lemma {:induction false} BootInv(hz: nat, cpus: seq<Cpu>, jiffies: int)
    requires forall c <- cpus :: c.active == 0 && c.flight == Nothing
    ensures Inv(State(cpus, 0, [0, 0], 0, jiffies + Freq(hz), jiffies, [0, 0, 0], Resting))
  {
    BootSums(cpus);
  }

  lemma {:induction false} BootSums(cpus: seq<Cpu>)
    requires forall c <- cpus :: c.active == 0 && c.flight == Nothing
    ensures SumActive(cpus) == 0 && SumInFlight(cpus) == 0
  {
    if cpus != [] {
      BootSums(cpus[1..]);
    }
  }

  /** Hence, when every CPU has folded and added all it has, the three counters together are
      the number of running and uninterruptible tasks. */
  function SumNow(cpus: seq<Cpu>): int {
    if cpus == [] then 0 else cpus[0].nrRunning + cpus[0].nrUninterruptible + SumNow(cpus[1..])
  }

  lemma QuiescentIsExact(s: State)
    requires Inv(s) && !s.phase.Taken?
    requires forall c <- s.cpus :: c.flight == Nothing && c.active == c.nrRunning + c.nrUninterruptible
    ensures s.tasks + s.idle[0] + s.idle[1] == SumNow(s.cpus)
  {
    FoldedSums(s.cpus);
  }

  lemma {:induction false} FoldedSums(cpus: seq<Cpu>)
    requires forall c <- cpus :: c.flight == Nothing && c.active == c.nrRunning + c.nrUninterruptible
    ensures SumActive(cpus) == SumNow(cpus) && SumInFlight(cpus) == 0
  {
    if cpus != [] {
      FoldedSums(cpus[1..]);
    }
  }

  /** A tick that is due brings the whole change of a CPU's count into the sum, and the next one
      is due a period later; one that is not due does nothing. */
  lemma TickCounts(hz: nat, s: State, c: nat)
    requires Shaped(s) && c < |s.cpus| && s.cpus[c].flight.Nothing?
    ensures var (was, r) := (s.cpus[c], AccountActive(hz, s, c));
      && (s.jiffies < was.update ==> r == s)
      && (s.jiffies >= was.update ==>
            var now := was.nrRunning + was.nrUninterruptible;
            r == s.(tasks := s.tasks + now - was.active,
                    cpus := s.cpus[c := was.(active := now, update := was.update + 5 * hz + 1)]))
  {
    hide ExitUpdate, WriteIdx, ReadIdx, Behind;
  }

  /** Going idle brings it into the side counter that is written at the time. */
  lemma IdleCounts(hz: nat, s: State, c: nat)
    requires Shaped(s) && c < |s.cpus| && s.cpus[c].flight.Nothing?
    ensures var (was, r) := (s.cpus[c], EnterIdle(hz, s, c));
      var now, i := was.nrRunning + was.nrUninterruptible, (if s.jiffies < s.update then s.idx else s.idx + 1) % 2;
      r == s.(idle := s.idle[i := s.idle[i] + now - was.active], cpus := s.cpus[c := was.(active := now)])
  {
    var now, i := s.cpus[c].nrRunning + s.cpus[c].nrUninterruptible, (if s.jiffies < s.update then s.idx else s.idx + 1) % 2;
    if now == s.cpus[c].active {
      assert s.idle[i := s.idle[i]] == s.idle;
      assert s.cpus[c := s.cpus[c].(active := now)] == s.cpus;
    }
    hide ExitUpdate, ReadIdx, Behind, AverageOnce, AverageMany;
  }

  function TickAll(hz: nat, s: State, n: nat): (r: State)
    requires Shaped(s) && n <= |s.cpus| && forall c: nat | c < |s.cpus| :: s.cpus[c].flight.Nothing?
    ensures Shaped(r) && |r.cpus| == |s.cpus| && forall c: nat | c < |s.cpus| :: r.cpus[c].flight.Nothing?
  {
    if n == 0 then s
    else
      var s1 := TickAll(hz, s, n - 1);
      TickCounts(hz, s1, n - 1);
      AccountActive(hz, s1, n - 1)
  }

  /** Hence, when a tick is due on every CPU and all of them take it, the counters are right,
      whatever was missing before. */
  lemma TicksMakeExact(hz: nat, s: State)
    requires Inv(s) && !s.phase.Taken?
    requires forall c: nat | c < |s.cpus| :: s.cpus[c].flight.Nothing? && s.jiffies >= s.cpus[c].update
    ensures var r := TickAll(hz, s, |s.cpus|);
      r.tasks + r.idle[0] + r.idle[1] == SumNow(s.cpus)
  {
    TickedAll(hz, s, |s.cpus|);
    var r := TickAll(hz, s, |s.cpus|);
    QuiescentIsExact(r);
    SameCounts(s.cpus, r.cpus);
  }

  lemma {:induction false} TickedAll(hz: nat, s: State, n: nat)
    requires Inv(s) && n <= |s.cpus|
    requires forall c: nat | c < |s.cpus| :: s.cpus[c].flight.Nothing? && s.jiffies >= s.cpus[c].update
    ensures var r := TickAll(hz, s, n);
      && Inv(r) && r.phase == s.phase && r.jiffies == s.jiffies
      && (forall c: nat | c < n :: r.cpus[c].active == s.cpus[c].nrRunning + s.cpus[c].nrUninterruptible)
      && (forall c: nat | c < |s.cpus| :: r.cpus[c].nrRunning == s.cpus[c].nrRunning
                                         && r.cpus[c].nrUninterruptible == s.cpus[c].nrUninterruptible)
      && forall c: nat | n <= c < |s.cpus| :: r.cpus[c] == s.cpus[c]
  {
    if n > 0 {
      TickedAll(hz, s, n - 1);
      var s1 := TickAll(hz, s, n - 1);
      TickCounts(hz, s1, n - 1);
      AccountActiveKeeps(hz, s1, n - 1);
      hide Inv, AccountActive;
    }
  }

  lemma {:induction false} SameCounts(cpus: seq<Cpu>, cpus': seq<Cpu>)
    requires |cpus| == |cpus'|
    requires forall c: nat | c < |cpus| :: cpus'[c].nrRunning == cpus[c].nrRunning
                                           && cpus'[c].nrUninterruptible == cpus[c].nrUninterruptible
    ensures SumNow(cpus') == SumNow(cpus)
  {
    if cpus != [] {
      SameCounts(cpus[1..], cpus'[1..]);
    }
  }

  // ---------------------------------------------------------------------------
  // the window and the missed periods
  // ---------------------------------------------------------------------------

  lemma CaughtUpFits(jiffies: int, update: int, freq: nat)
    requires freq > 0 && jiffies >= update + 10
    ensures var n := Behind(jiffies, update, freq);
      update + n * freq + 10 - freq <= jiffies < update + n * freq + 10
  {
    var d := jiffies - update - 10;
    var q := d / freq;
    assert d == q * freq + d % freq;
    assert (1 + q) * freq == q * freq + freq;
  }

  /** Two numbers of periods that leave the same instant in the window are the same. */
  lemma WindowIsUnique(jiffies: int, update: int, freq: nat, k: nat, k': nat)
    requires freq > 0
    requires update + k * freq + 10 - freq <= jiffies < update + k * freq + 10
    requires update + k' * freq + 10 - freq <= jiffies < update + k' * freq + 10
    ensures k == k'
  {
    if k < k' {
      Gap(k, k', freq);
    } else if k' < k {
      Gap(k', k, freq);
    }
  }

  lemma {:induction false} Gap(k: nat, k': nat, freq: nat)
    requires k < k'
    ensures k' * freq >= k * freq + freq
  {
    assert k' * freq == (k' - 1) * freq + freq;
    if k + 1 < k' {
      Gap(k, k' - 1, freq);
    }
  }

  /** Steps of the other CPUs leave what the averaging CPU works on alone, except the sum. */
  lemma OthersKeepGlobal(hz: nat, s: State, step: Step)
    requires Shaped(s) && Enabled(s, step) && !IsGlobal(step)
    ensures var s' := Next(hz, s, step);
      s'.avenrun == s.avenrun && s'.update == s.update && s'.jiffies == s.jiffies && s'.idx == s.idx && s'.phase == s.phase
  {
  }

  /** Averaging and catching up, over a state in which at most the sum has changed between. */
  lemma AverageThenCatchUp(hz: nat, s: State, t: State)
    requires Shaped(s) && Shaped(t) && s.phase.Added? && s.jiffies >= s.update + 10
    requires var a := Next(hz, s, GlobalAverage);
      t.avenrun == a.avenrun && t.update == a.update && t.jiffies == a.jiffies && t.phase == a.phase
    ensures Applied(hz, s.update, s.avenrun, s.tasks, t.tasks, Next(hz, t, GlobalCatchUp))
  {
    hide AverageOnce, AverageMany, Behind, Fold, ExitUpdate, Target;
    var freq := Freq(hz);
    var k := Behind(s.jiffies, s.update, freq);
    CaughtUpFits(s.jiffies, s.update, freq);
    if t.jiffies >= t.update + 10 {
      var n := Behind(t.jiffies, t.update, freq);
      CaughtUpFits(t.jiffies, t.update, freq);
      assert t.update + n * freq == s.update + (n + 1) * freq;
      WindowIsUnique(s.jiffies, s.update, freq, k, n + 1);
    } else {
      assert 1 * freq == freq;
      WindowIsUnique(s.jiffies, s.update, freq, k, 1);
    }
  }

  /** `r` is what is right after the periods that began since `update` were applied once each:
      the first by itself with the sum `tasks`, the missed ones in bulk with `tasks'`; and the
      instant lies in the window of the new update. */
  predicate Applied(hz: nat, update: int, avenrun: seq<nat>, tasks: int, tasks': int, r: State) {
    && r.jiffies >= update + 10 && |avenrun| == 3
    && var k := Behind(r.jiffies, update, Freq(hz));
       && r.update == update + k * Freq(hz)
       && r.update + 10 - Freq(hz) <= r.jiffies < r.update + 10
       && r.avenrun == if k == 1 then AverageOnce(avenrun, Target(tasks))
                       else AverageMany(AverageOnce(avenrun, Target(tasks)), Target(tasks'), k - 1)
  }

  /** Where a call of `calc_global_load` that began with the drain at `s0` is at `s`. */
  predicate Underway(hz: nat, s0: State, s: State, average: State) {
    && Shaped(s0) && Shaped(s) && Shaped(average) && s.jiffies == s0.jiffies
    && match s.phase
       case Taken(_) => s.avenrun == s0.avenrun && s.update == s0.update
       case Added => s.avenrun == s0.avenrun && s.update == s0.update
       case Averaged =>
         && average.phase.Added? && average.jiffies == s0.jiffies
         && average.avenrun == s0.avenrun && average.update == s0.update
         && var a := Next(hz, average, GlobalAverage);
            s.avenrun == a.avenrun && s.update == a.update
       case _ => false
  }

  /** One step from a state that is underway; the averaging step makes that state the `average`. */
  lemma UnderwayStep(hz: nat, s0: State, s: State, average: State, step: Step)
    requires Underway(hz, s0, s, average) && Enabled(s, step) && !step.GlobalCatchUp?
    ensures Underway(hz, s0, Next(hz, s, step), if step.GlobalAverage? then s else average)
    ensures step.GlobalAverage? <==> !s.phase.Averaged? && Next(hz, s, step).phase.Averaged?
  {
    hide AverageOnce, AverageMany, Behind, Fold, ExitUpdate;
    if !IsGlobal(step) {
      OthersKeepGlobal(hz, s, step);
      hide Next;
    }
  }

  /** Over any run segment from the drain on that has not yet caught up, however the steps of
      the other CPUs fall; `a` is where it averaged, if it has. */
  lemma {:induction false} SegmentUnderway(hz: nat, states: seq<State>, steps: seq<Step>, n: nat) returns (a: nat)
    requires IsRun(hz, states, steps) && 1 <= n <= |steps| && steps[0] == GlobalTake
    requires forall k: nat | k < n :: !steps[k].GlobalCatchUp?
    ensures a < n && Underway(hz, states[0], states[n], states[a])
    ensures states[n].phase.Averaged? ==> steps[a] == GlobalAverage
  {
    if n == 1 {
      a := 0;
    } else {
      a := SegmentUnderway(hz, states, steps, n - 1);
      hide Next, Underway;
      UnderwayStep(hz, states[0], states[n - 1], states[a], steps[n - 1]);
      if steps[n - 1].GlobalAverage? {
        a := n - 1;
      }
    }
  }

  /** The whole of `calc_global_load` once it acts, from the drain to the catching up, with any
      number of steps of other CPUs anywhere between: every period since the last update is
      applied exactly once, with the sums that its two averaging steps find, and afterwards
      the instant lies in the window of the new update. */
  lemma PeriodsApplied(hz: nat, states: seq<State>, steps: seq<Step>, n: nat) returns (a: nat)
    requires IsRun(hz, states, steps) && n < |steps|
    requires steps[0] == GlobalTake && steps[n] == GlobalCatchUp && forall k: nat | k < n :: !steps[k].GlobalCatchUp?
    ensures a < n && steps[a] == GlobalAverage
    ensures Applied(hz, states[0].update, states[0].avenrun, states[a].tasks, states[n].tasks, states[n + 1])
  {
    a := SegmentUnderway(hz, states, steps, n);
    hide Applied;
    AverageThenCatchUp(hz, states[a], states[n]);
  }

  /** The bulk step against `n` single ones, for counts that the registers can average. */
  lemma BulkIsNear(avenrun: seq<nat>, tasks: int, n: nat, i: nat)
    requires |avenrun| == 3 && i < 3 && avenrun[i] <= FixedPoint.MAX_LOAD && tasks <= 1023
    ensures FixedPoint.Abs(AverageMany(avenrun, Target(tasks), n)[i] as real
                           - FixedPoint.Iterate(avenrun[i], EXPS[i], Target(tasks), n) as real)
            <= FixedPoint.ShortcutError(avenrun[i], Target(tasks), n)
  {
    FixedPoint.CalcLoadNNear(avenrun[i], EXPS[i], Target(tasks), n);
  }

  /** A CPU that wakes up in or after the window does not sample in it: its next sample lies
      ahead, unless the global update itself is overdue. */
  lemma WakingSkipsTheWindow(hz: nat, s: State, c: nat)
    requires hz >= 2 && Shaped(s) && Enabled(s, ExitIdle(c))
    ensures var s' := Next(hz, s, ExitIdle(c));
      s.jiffies < s'.cpus[c].update <==> s.jiffies < s.cpus[c].update || s.jiffies < s.update + 10
  {
  }

  /** An idle delta that is aimed while the window is open, with the index read at step 0 and
      not flipped since, is not part of the drain that ends this window, however the CPUs
      interleave until then. */
  lemma WindowSeparates(hz: nat, states: seq<State>, steps: seq<Step>, c: nat, m: nat, n: nat)
    requires IsRun(hz, states, steps) && 0 < m < n < |steps|
    requires steps[0] == IdleRead(c) && steps[m] == IdleAim(c) && states[m].jiffies >= states[m].update
    requires (forall k: nat | k < n :: !steps[k].GlobalFlip?) && steps[n] == GlobalTake
    ensures c < |states[m + 1].cpus| && states[m + 1].cpus[c].flight.Aimed? && states[m + 1].cpus[c].flight.idx < 2
    ensures var aim := states[m + 1].cpus[c].flight.idx;
      states[n + 1].idle[aim] == states[n].idle[aim]
  {
    IndexStays(hz, states, steps, 0, n);
    IndexStays(hz, states, steps, 0, m);
    SeenStays(hz, states, steps, c, m);
    assert states[m + 1] == Next(hz, states[m], IdleAim(c));
    assert states[n + 1] == Next(hz, states[n], GlobalTake);
  }

  /** An index that is seen is the present one while nothing flips it. */
  lemma {:induction false} SeenStays(hz: nat, states: seq<State>, steps: seq<Step>, c: nat, n: nat)
    requires IsRun(hz, states, steps) && 0 < n <= |steps| && steps[0] == IdleRead(c)
    requires forall k: nat | k < n :: !steps[k].GlobalFlip?
    ensures c < |states[n].cpus| && (states[n].cpus[c].flight.Read? ==> states[n].cpus[c].flight.seen == states[0].idx)
  {
    IndexStays(hz, states, steps, 0, n - 1);
    if n > 1 {
      SeenStays(hz, states, steps, c, n - 1);
    }
    hide AverageOnce, AverageMany;
  }

  lemma {:induction false} IndexStays(hz: nat, states: seq<State>, steps: seq<Step>, i: nat, n: nat)
    requires IsRun(hz, states, steps) && i <= n <= |steps|
    requires forall k: nat | i <= k < n :: !steps[k].GlobalFlip?
    ensures states[n].idx == states[i].idx
  {
    if n > i {
      IndexStays(hz, states, steps, i, n - 1);
    }
  }

  /** It is drained by the fold of the next window: with one flip between, the counter that it
      was aimed at is the one that is taken to the sum, whole, and left empty. */
  lemma NextWindowTakesIt(hz: nat, states: seq<State>, steps: seq<Step>, c: nat, m: nat, f: nat, n: nat)
    requires IsRun(hz, states, steps) && 0 < m < f < n < |steps|
    requires steps[0] == IdleRead(c) && steps[m] == IdleAim(c) && states[m].jiffies >= states[m].update
    requires steps[f] == GlobalFlip && steps[n] == GlobalTake && forall k: nat | k < n && k != f :: !steps[k].GlobalFlip?
    ensures c < |states[m + 1].cpus| && states[m + 1].cpus[c].flight.Aimed? && states[m + 1].cpus[c].flight.idx < 2
    ensures var aim := states[m + 1].cpus[c].flight.idx;
      |states[n].idle| == 2 && states[n + 1].idle == states[n].idle[aim := 0] && states[n + 1].phase == Taken(states[n].idle[aim])
  {
    IndexStays(hz, states, steps, 0, m);
    IndexStays(hz, states, steps, 0, f);
    IndexStays(hz, states, steps, f + 1, n);
    SeenStays(hz, states, steps, c, m);
    assert states[m + 1] == Next(hz, states[m], IdleAim(c));
    assert states[f + 1] == Next(hz, states[f], GlobalFlip);
    assert states[n + 1] == Next(hz, states[n], GlobalTake);
    hide AverageOnce, AverageMany, Behind, Fold, ExitUpdate;
  }

  // ---------------------------------------------------------------------------
  // which average is which
  // ---------------------------------------------------------------------------

  /** No average has passed the target, and the second and third lag behind the first. */
  predicate Rising(avenrun: seq<nat>, target: nat) {
    |avenrun| == 3 && avenrun[2] <= avenrun[1] <= avenrun[0] <= target
  }

  predicate Falling(avenrun: seq<nat>, target: nat) {
    |avenrun| == 3 && target <= avenrun[0] <= avenrun[1] <= avenrun[2] <= FixedPoint.MAX_LOAD
  }

  /** Two loads on the same side of the target keep their order, and the side, if the one
      further away has the larger weight. */
  lemma PairKeepsOrder(near: nat, far: nat, exp: nat, exp': nat, target: nat)
    requires exp <= exp' <= FixedPoint.FIXED_1 && target <= FixedPoint.MAX_LOAD
    requires near <= FixedPoint.MAX_LOAD && far <= FixedPoint.MAX_LOAD
    ensures far <= near <= target ==>
      FixedPoint.CalcLoad(far, exp', target) <= FixedPoint.CalcLoad(near, exp, target) <= target
    ensures target <= near <= far ==>
      target <= FixedPoint.CalcLoad(near, exp, target) <= FixedPoint.CalcLoad(far, exp', target) <= FixedPoint.MAX_LOAD
  {
    hide FixedPoint.CalcLoad, FixedPoint.Average;
    FixedPoint.CalcLoadFits(near, exp, target);
    FixedPoint.CalcLoadFits(far, exp', target);
    FixedPoint.SmallerWeightFollows(near, exp, exp', target);
    FixedPoint.AverageBetween(near, exp, target);
    FixedPoint.AverageBetween(far, exp', target);
    if far <= near {
      FixedPoint.AverageMonotone(far, near, exp', target, target);
    } else {
      FixedPoint.AverageMonotone(near, far, exp', target, target);
    }
  }

  lemma OnceKeepsOrder(avenrun: seq<nat>, target: nat)
    requires |avenrun| == 3 && target <= FixedPoint.MAX_LOAD
    ensures Rising(avenrun, target) ==> Rising(AverageOnce(avenrun, target), target)
    ensures Falling(avenrun, target) ==> Falling(AverageOnce(avenrun, target), target)
  {
    if Rising(avenrun, target) || Falling(avenrun, target) {
      PairKeepsOrder(avenrun[0], avenrun[1], EXPS[0], EXPS[1], target);
      PairKeepsOrder(avenrun[1], avenrun[2], EXPS[1], EXPS[2], target);
    }
    hide FixedPoint.CalcLoad;
  }

  lemma ManyKeepsOrder(avenrun: seq<nat>, target: nat, n: nat)
    requires |avenrun| == 3 && target <= FixedPoint.MAX_LOAD
    ensures Rising(avenrun, target) ==> Rising(AverageMany(avenrun, target, n), target)
    ensures Falling(avenrun, target) ==> Falling(AverageMany(avenrun, target, n), target)
  {
    hide FixedPoint.CalcLoad, FixedPoint.FixedPower;
    FixedPoint.FixedPowerMonotone(EXPS[0], EXPS[1], n);
    FixedPoint.FixedPowerMonotone(EXPS[1], EXPS[2], n);
    if Rising(avenrun, target) || Falling(avenrun, target) {
      PairKeepsOrder(avenrun[0], avenrun[1], FixedPoint.FixedPower(EXPS[0], FixedPoint.FSHIFT, n),
                     FixedPoint.FixedPower(EXPS[1], FixedPoint.FSHIFT, n), target);
      PairKeepsOrder(avenrun[1], avenrun[2], FixedPoint.FixedPower(EXPS[1], FixedPoint.FSHIFT, n),
                     FixedPoint.FixedPower(EXPS[2], FixedPoint.FSHIFT, n), target);
    }
  }

  /** The averaging steps among the first `n` find `tasks` tasks. */
  predicate Steady(states: seq<State>, steps: seq<Step>, n: nat, tasks: nat)
    requires n <= |steps| <= |states|
  {
    forall k: nat | k < n :: steps[k].GlobalAverage? || steps[k].GlobalCatchUp? ==> states[k].tasks == tasks
  }

  /** Under a steady load, over any run of all steps: the first average answers faster than the
      second and the second faster than the third, from below and from above, through single
      and through missed periods. */
  lemma {:induction false} FirstFollowsFastest(hz: nat, states: seq<State>, steps: seq<Step>, n: nat, tasks: nat)
    requires IsRun(hz, states, steps) && n < |states| && tasks <= 1023 && Steady(states, steps, n, tasks)
    ensures Rising(states[0].avenrun, tasks * 2048) ==> Rising(states[n].avenrun, tasks * 2048)
    ensures Falling(states[0].avenrun, tasks * 2048) ==> Falling(states[n].avenrun, tasks * 2048)
  {
    if n > 0 {
      FirstFollowsFastest(hz, states, steps, n - 1, tasks);
      OrderStep(hz, states[n - 1], steps[n - 1], tasks);
      hide Rising, Falling, Next;
    }
  }

  lemma OrderStep(hz: nat, s: State, step: Step, tasks: nat)
    requires Shaped(s) && Enabled(s, step) && tasks <= 1023
    requires step.GlobalAverage? || step.GlobalCatchUp? ==> s.tasks == tasks
    ensures Rising(s.avenrun, tasks * 2048) ==> Rising(Next(hz, s, step).avenrun, tasks * 2048)
    ensures Falling(s.avenrun, tasks * 2048) ==> Falling(Next(hz, s, step).avenrun, tasks * 2048)
  {
    hide AverageOnce, AverageMany, Behind, Rising, Falling, Fold, ExitUpdate;
    if !IsGlobal(step) {
      OthersKeepGlobal(hz, s, step);
      hide Next;
    } else if step.GlobalAverage? {
      OnceKeepsOrder(s.avenrun, tasks * 2048);
    } else if step.GlobalCatchUp? && s.jiffies >= s.update + 10 {
      ManyKeepsOrder(s.avenrun, tasks * 2048, Behind(s.jiffies, s.update, Freq(hz)));
    }
  }

  /** Hence from three equal averages they come apart in this order, and not at all when they
      are the steady load itself: `tasks` tasks show as `tasks` in each. */
  lemma EqualAveragesPart(hz: nat, states: seq<State>, steps: seq<Step>, n: nat, tasks: nat, load: nat)
    requires IsRun(hz, states, steps) && n < |states| && tasks <= 1023 && Steady(states, steps, n, tasks)
    requires states[0].avenrun == [load, load, load] && load <= FixedPoint.MAX_LOAD
    ensures var avenrun := states[n].avenrun;
      && |avenrun| == 3
      && (load <= tasks * FixedPoint.FIXED_1 ==> avenrun[0] >= avenrun[1] >= avenrun[2])
      && (load >= tasks * FixedPoint.FIXED_1 ==> avenrun[0] <= avenrun[1] <= avenrun[2])
      && (load == tasks * FixedPoint.FIXED_1 ==> avenrun == [load, load, load])
  {
    FirstFollowsFastest(hz, states, steps, n, tasks);
  }

  /** The same for one call, for what it finds on the counters. */
  lemma GlobalLoadKeepsOrder(hz: nat, s: State, tasks: nat)
    requires Shaped(s) && s.phase.Entered? && s.tasks + s.idle[ReadIdx(s)] == tasks <= 1023
    ensures Rising(s.avenrun, tasks * 2048) ==> Rising(GlobalLoad(hz, s).avenrun, tasks * 2048)
    ensures Falling(s.avenrun, tasks * 2048) ==> Falling(GlobalLoad(hz, s).avenrun, tasks * 2048)
  {
    hide Rising, Falling, AverageOnce, AverageMany, Behind;
    if s.jiffies >= s.update + 10 {
      var s2 := Next(hz, Next(hz, s, GlobalTake), GlobalAdd);
      assert s2.avenrun == s.avenrun && s2.tasks == tasks;
      OrderStep(hz, s2, GlobalAverage, tasks);
      OrderStep(hz, Next(hz, s2, GlobalAverage), GlobalCatchUp, tasks);
    }
  }

  /** One task, one period: they do come apart. */
  lemma OneTaskOnePeriod(hz: nat, s: State)
    requires Shaped(s) && s.phase.Added? && s.avenrun == [0, 0, 0] && s.tasks == 1
    ensures Next(hz, s, GlobalAverage).avenrun == [164, 34, 11]
  {
    hide AverageOnce;
    OnceFromZero();
  }

  lemma OnceFromZero()
    ensures AverageOnce([0, 0, 0], 2048) == [164, 34, 11]
  {
    hide FixedPoint.CalcLoad;
    FixedPoint.FirstStep(FixedPoint.EXP_1);
    FixedPoint.FirstStep(FixedPoint.EXP_5);
    FixedPoint.FirstStep(FixedPoint.EXP_15);
  }

  /** The names of the averages: from zero and with one task, the first has come as near to it
      in one minute as the second in five and the third in fifteen, within a fiftieth of
      1 - 1/e; an update that many periods late shows it in one call. */
  lemma OneFiveFifteen(hz: nat, s: State)
    requires Shaped(s) && s.phase.Entered? && s.avenrun == [0, 0, 0] && s.tasks + s.idle[ReadIdx(s)] == 1
    requires s.jiffies >= s.update + 10
    ensures var avenrun, periods := GlobalLoad(hz, s).avenrun, Behind(s.jiffies, s.update, Freq(hz));
      && |avenrun| == 3
      && (periods == 12 ==> avenrun[0] == 1297)
      && (periods == 60 ==> avenrun[1] == 1293)
      && (periods == 180 ==> avenrun[2] == 1275)
  {
    hide AverageOnce, AverageMany, Behind;
    var s2 := Next(hz, Next(hz, s, GlobalTake), GlobalAdd);
    AverageThenCatchUp(hz, s2, Next(hz, s2, GlobalAverage));
    assert s2.avenrun == [0, 0, 0] && s2.tasks == 1;
    OneTaskOnePeriod(hz, s2);
    MissedMinutes();
  }

  lemma MissedMinutes()
    ensures AverageMany([164, 34, 11], 2048, 11)[0] == 1297
    ensures AverageMany([164, 34, 11], 2048, 59)[1] == 1293
    ensures AverageMany([164, 34, 11], 2048, 179)[2] == 1275
  {
    hide FixedPoint.CalcLoad, FixedPoint.FixedPower;
    FixedPoint.MinutePower();
    FixedPoint.FiveMinutesPower();
    FixedPoint.QuarterPower();
    FixedPoint.LaterStep(164, 816, 1297);
    FixedPoint.LaterStep(34, 768, 1293);
    FixedPoint.LaterStep(11, 777, 1275);
  }

  // ---------------------------------------------------------------------------
  // the code
  // ---------------------------------------------------------------------------

  /** The counters and the run queues' fields.  A method is one call that nothing interleaves
      with; it makes the steps of that call in their order. */
  class LoadCounter {
    const hz: nat
    const cpus: array<Cpu>
    var tasks: int
    var idle: seq<int>
    var idx: nat
    var update: int
    var jiffies: int
    var avenrun: seq<nat>
    var phase: Phase

    ghost function Abs(): State
      reads this, cpus
    {
      State(cpus[..], tasks, idle, idx, update, jiffies, avenrun, phase)
    }

    ghost predicate Valid()
      reads this, cpus
    {
      Inv(Abs())
    }

    constructor (hz: nat, n: nat, jiffies: int)
      ensures Valid() && fresh(cpus) && cpus.Length == n && this.hz == hz
      ensures Abs() == State(cpus[..], 0, [0, 0], 0, jiffies + Freq(hz), jiffies, [0, 0, 0], Resting)
      ensures forall c: nat | c < n :: cpus[c] == Cpu(0, 0, 0, jiffies + Freq(hz), Nothing)
    {
      this.hz, this.jiffies := hz, jiffies;
      cpus := new Cpu[n](_ => Cpu(0, 0, 0, jiffies + Freq(hz), Nothing));
      tasks, idle, idx, update, avenrun, phase := 0, [0, 0], 0, jiffies + Freq(hz), [0, 0, 0], Resting;
      new;
      BootInv(hz, cpus[..], jiffies);
    }

    method CalcLoadFoldActive(c: nat) returns (delta: int)
      requires c < cpus.Length
      modifies cpus
      ensures cpus[..] == old(cpus[..])[c := Fold(old(cpus[c])).0] && delta == Fold(old(cpus[c])).1
    {
      var nrActive := cpus[c].nrRunning;
      nrActive := nrActive + cpus[c].nrUninterruptible;
      delta := 0;
      if nrActive != cpus[c].active {
        delta := nrActive - cpus[c].active;
        cpus[c] := cpus[c].(active := nrActive);
      }
      assert cpus[..] == old(cpus[..])[c := Fold(old(cpus[c])).0];
    }

    method CalcLoadAccountActive(c: nat)
      requires Valid() && c < cpus.Length && cpus[c].flight.Nothing?
      modifies this`tasks, cpus
      ensures Valid() && Abs() == AccountActive(hz, old(Abs()), c)
    {
      AccountActiveKeeps(hz, Abs(), c);
      if jiffies < cpus[c].update {
        return;
      }
      var delta := CalcLoadFoldActive(c);
      if delta != 0 {
        tasks := tasks + delta;
      }
      cpus[c] := cpus[c].(update := cpus[c].update + Freq(hz));
      assert cpus[..] == AccountActive(hz, old(Abs()), c).cpus;
    }

    method CalcLoadEnterIdle(c: nat)
      requires Valid() && c < cpus.Length && cpus[c].flight.Nothing?
      modifies this`idle, cpus
      ensures Valid() && Abs() == EnterIdle(hz, old(Abs()), c)
    {
      EnterIdleKeeps(hz, Abs(), c);
      var delta := CalcLoadFoldActive(c);
      if delta != 0 {
        var i := idx;
        if !(jiffies < update) {
          i := i + 1;
        }
        i := i % 2;
        idle := idle[i := idle[i] + delta];
      }
      assert cpus[..] == EnterIdle(hz, old(Abs()), c).cpus;
    }

    method CalcLoadExitIdle(c: nat)
      requires Valid() && c < cpus.Length && cpus[c].flight.Nothing?
      modifies cpus
      ensures Valid() && Abs() == Next(hz, old(Abs()), ExitIdle(c))
    {
      CpuStepKeeps(hz, Abs(), ExitIdle(c));
      if jiffies < cpus[c].update {
        assert cpus[..] == old(cpus[..])[c := cpus[c]];
        return;
      }
      cpus[c] := cpus[c].(update := update);
      if jiffies < cpus[c].update + 10 {
        cpus[c] := cpus[c].(update := cpus[c].update + Freq(hz));
      }
      assert cpus[..] == old(cpus[..])[c := cpus[c]];
    }

    method CalcGlobalLoadRemove(c: nat)
      requires Valid() && c < cpus.Length && cpus[c].flight.Nothing?
      modifies this`tasks, cpus
      ensures Valid() && Abs() == Next(hz, old(Abs()), Remove(c))
    {
      CpuStepKeeps(hz, Abs(), Remove(c));
      tasks := tasks - cpus[c].active;
      cpus[c] := cpus[c].(active := 0);
      assert cpus[..] == old(cpus[..])[c := cpus[c]];
    }

    method CalcLoadFoldIdle() returns (delta: int)
      requires |idle| == 2
      modifies this`idle
      ensures idle == old(idle)[idx % 2 := 0] && delta == old(idle)[idx % 2]
    {
      var i := idx % 2;
      delta := 0;
      if idle[i] != 0 {
        delta := idle[i];
        idle := idle[i := 0];
      }
      assert idle == old(idle)[i := 0];
    }

    /** How many periods the update is behind still. */
    method PeriodsBehind() returns (n: nat)
      requires jiffies >= update + 10
      ensures n == Behind(jiffies, update, Freq(hz))
    {
      var delta := jiffies - update - 10;
      n := 1 + delta / Freq(hz);
    }

    method CalcGlobalNohz()
      requires Shaped(Abs()) && phase.Averaged?
      modifies this`avenrun, this`update, this`idx, this`phase
      ensures Abs() == Next(hz, Next(hz, old(Abs()), GlobalCatchUp), GlobalFlip)
      ensures 0 <= tasks <= 1023 ==>
        && (Rising(old(avenrun), tasks * 2048) ==> Rising(avenrun, tasks * 2048))
        && (Falling(old(avenrun), tasks * 2048) ==> Falling(avenrun, tasks * 2048))
    {
      if 0 <= tasks <= 1023 {
        OrderStep(hz, Abs(), GlobalCatchUp, tasks);
      }
      FlipKeepsAverages(hz, Next(hz, Abs(), GlobalCatchUp));
      CatchUpIs(hz, Abs());
      hide AverageMany, Next, Shaped, Behind, Freq, Rising, Falling;
      if !(jiffies < update + 10) {
        var n := PeriodsBehind();
        var active: nat := if tasks > 0 then tasks * 2048 else 0;
        avenrun := AverageMany(avenrun, active, n);
        update := update + n * Freq(hz);
      }
      idx := idx + 1;
      phase := Resting;
    }

    /** `calc_global_load`: afterwards the window of the update has not passed, and if the
        call acted it has begun. */
    method CalcGlobalLoad()
      requires Valid() && phase.Entered?
      modifies this`tasks, this`idle, this`avenrun, this`update, this`idx, this`phase
      ensures Valid() && phase == Resting && jiffies < update + 10
      ensures Abs() == GlobalLoad(hz, old(Abs()))
      ensures old(jiffies >= update + 10) ==> update + 10 - Freq(hz) <= jiffies
      ensures var found := old(tasks + idle[idx % 2]);
        0 <= found <= 1023 ==>
          && (Rising(old(avenrun), found * 2048) ==> Rising(avenrun, found * 2048))
          && (Falling(old(avenrun), found * 2048) ==> Falling(avenrun, found * 2048))
    {
      GlobalLoadKeeps(hz, Abs());
      if 0 <= tasks + idle[idx % 2] <= 1023 {
        GlobalLoadKeepsOrder(hz, Abs(), tasks + idle[idx % 2]);
      }
      SkipIs(hz, Abs());
      hide Inv, Next, Rising, Falling;
      if jiffies < update + 10 {
        phase := Resting;
        return;
      }
      DrainIdle();
      AverageNow();
      CalcGlobalNohz();
    }

    method AverageNow()
      requires Shaped(Abs()) && phase.Added?
      modifies this`avenrun, this`update, this`phase
      ensures Abs() == Next(hz, old(Abs()), GlobalAverage) && phase.Averaged?
    {
      var active: nat := if tasks > 0 then tasks * 2048 else 0;
      avenrun := AverageOnce(avenrun, active);
      update := update + Freq(hz);
      phase := Averaged;
    }

    /** The beginning of `calc_global_load`. */
    method DrainIdle()
      requires Shaped(Abs()) && phase.Entered? && jiffies >= update + 10
      modifies this`tasks, this`idle, this`phase
      ensures Abs() == Next(hz, Next(hz, old(Abs()), GlobalTake), GlobalAdd) && phase.Added?
    {
      var delta := CalcLoadFoldIdle();
      if delta != 0 {
        tasks := tasks + delta;
      }
      phase := Added;
    }
  }

  /** The steps of one undisturbed call. */
  function AccountActive(hz: nat, s: State, c: nat): State
    requires Shaped(s) && c < |s.cpus| && s.cpus[c].flight.Nothing?
  {
    if s.jiffies < s.cpus[c].update then s
    else
      var s1 := Next(hz, s, TickFold(c));
      if s1.cpus[c].flight.Folded? then Next(hz, s1, TickAdd(c)) else s1
  }

  function EnterIdle(hz: nat, s: State, c: nat): State
    requires Shaped(s) && c < |s.cpus| && s.cpus[c].flight.Nothing?
  {
    var s1 := Next(hz, s, IdleFold(c));
    if s1.cpus[c].flight.Folded? then Next(hz, Next(hz, Next(hz, s1, IdleRead(c)), IdleAim(c)), IdleAdd(c)) else s1
  }

  function GlobalLoad(hz: nat, s: State): State
    requires Shaped(s) && s.phase.Entered?
  {
    if s.jiffies < s.update + 10 then Next(hz, s, GlobalSkip)
    else Next(hz, Next(hz, Next(hz, Next(hz, Next(hz, s, GlobalTake), GlobalAdd), GlobalAverage), GlobalCatchUp), GlobalFlip)
  }

  lemma AccountActiveKeeps(hz: nat, s: State, c: nat)
    requires Inv(s) && c < |s.cpus| && s.cpus[c].flight.Nothing?
    ensures Inv(AccountActive(hz, s, c))
  {
    if s.jiffies >= s.cpus[c].update {
      CpuStepKeeps(hz, s, TickFold(c));
      var s1 := Next(hz, s, TickFold(c));
      if s1.cpus[c].flight.Folded? {
        CpuStepKeeps(hz, s1, TickAdd(c));
      }
    }
  }

  lemma EnterIdleKeeps(hz: nat, s: State, c: nat)
    requires Inv(s) && c < |s.cpus| && s.cpus[c].flight.Nothing?
    ensures Inv(EnterIdle(hz, s, c))
  {
    CpuStepKeeps(hz, s, IdleFold(c));
    var s1 := Next(hz, s, IdleFold(c));
    if s1.cpus[c].flight.Folded? {
      var s2 := Next(hz, s1, IdleRead(c));
      CpuStepKeeps(hz, s1, IdleRead(c));
      CpuStepKeeps(hz, s2, IdleAim(c));
      CpuStepKeeps(hz, Next(hz, s2, IdleAim(c)), IdleAdd(c));
    }
  }

  lemma FlipKeepsAverages(hz: nat, s: State)
    requires Shaped(s) && s.phase.CaughtUp?
    ensures Next(hz, s, GlobalFlip).avenrun == s.avenrun
  {
  }

  lemma CatchUpIs(hz: nat, s: State)
    requires Shaped(s) && s.phase.Averaged?
    ensures Freq(hz) > 0 && |s.avenrun| == 3
    ensures Next(hz, Next(hz, s, GlobalCatchUp), GlobalFlip)
            == if s.jiffies < s.update + 10 then s.(idx := s.idx + 1, phase := Resting)
               else
                 var n := Behind(s.jiffies, s.update, Freq(hz));
                 s.(avenrun := AverageMany(s.avenrun, Target(s.tasks), n), update := s.update + n * Freq(hz),
                    idx := s.idx + 1, phase := Resting)
  {
    hide AverageMany, Behind;
  }

  lemma SkipIs(hz: nat, s: State)
    requires Shaped(s) && s.phase.Entered?
    ensures s.jiffies < s.update + 10 ==> Next(hz, s, GlobalSkip) == s.(phase := Resting)
  {
  }

  lemma GlobalLoadKeeps(hz: nat, s: State)
    requires Inv(s) && s.phase.Entered?
    ensures Inv(GlobalLoad(hz, s)) && GlobalLoad(hz, s).phase.Resting?
    ensures GlobalLoad(hz, s).jiffies < GlobalLoad(hz, s).update + 10
    ensures s.jiffies >= s.update + 10 ==>
      GlobalLoad(hz, s).update + 10 - Freq(hz) <= s.jiffies == GlobalLoad(hz, s).jiffies
  {
    if s.jiffies < s.update + 10 {
      GlobalStepKeeps(hz, s, GlobalSkip);
    } else {
      UpToAverage(hz, s);
      var s2 := Next(hz, Next(hz, s, GlobalTake), GlobalAdd);
      FromAverage(hz, s2);
      hide Next, Inv;
    }
  }

  lemma UpToAverage(hz: nat, s: State)
    requires Inv(s) && s.phase.Entered? && s.jiffies >= s.update + 10
    ensures var r := Next(hz, Next(hz, s, GlobalTake), GlobalAdd);
      Inv(r) && r.phase.Added? && r.jiffies == s.jiffies && r.update == s.update
  {
    GlobalStepKeeps(hz, s, GlobalTake);
    GlobalStepKeeps(hz, Next(hz, s, GlobalTake), GlobalAdd);
    hide Inv;
  }

  lemma FromAverage(hz: nat, s: State)
    requires Inv(s) && s.phase.Added? && s.jiffies >= s.update + 10
    ensures var r := Next(hz, Next(hz, Next(hz, s, GlobalAverage), GlobalCatchUp), GlobalFlip);
      Inv(r) && r.phase.Resting? && r.jiffies == s.jiffies && r.update + 10 - Freq(hz) <= r.jiffies < r.update + 10
  {
    hide AverageOnce, AverageMany, Behind, SumActive, SumInFlight;
    var s3 := Next(hz, s, GlobalAverage);
    GlobalStepKeeps(hz, s, GlobalAverage);
    GlobalStepKeeps(hz, s3, GlobalCatchUp);
    GlobalStepKeeps(hz, Next(hz, s3, GlobalCatchUp), GlobalFlip);
    AverageThenCatchUp(hz, s, s3);
    hide Inv;
  }
}
