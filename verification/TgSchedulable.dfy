/** The two admission checks that ride on the task-group walk: real-time ratios, where the
    children of a group must fit into it, and CFS quotas, where no child may exceed the
    tightest limit above it. */
module TgSchedulable {
  import opened TgWalk

  const EINVAL := 22
  const EBUSY := 16
  const RUNTIME_INF: nat := 0xFFFF_FFFF_FFFF_FFFF

  /** A period that can be divided by. */
  type Period = p: nat | p > 0 witness 1

  /** `to_ratio`: runtime per period in 2^-20ths.  The shift is a u64, the result a 32-bit
      unsigned long. */
  function ToRatio(period: Period, runtime: nat): nat {
    if runtime == RUNTIME_INF then 0x10_0000 else Quotient(Low64(runtime * 0x10_0000), period) % 0x1_0000_0000
  }

  function Low64(v: nat): nat {
    v % 0x1_0000_0000_0000_0000
  }

  function Quotient(v: nat, period: Period): nat {
    v / period
  }

  /** The visitor `tg_nop`. */
  function Nop<S>(): Visitor<S> {
    (id: nat, data: S) => (0, data)
  }

  // ---------------------------------------------------------------------------
  // real-time groups
  // ---------------------------------------------------------------------------

  datatype RtSetting = RtSetting(period: Period, runtime: nat)

  /** The groups as they are, and the change of group `tg` that is being checked. */
  datatype RtEnv = RtEnv(setting: nat -> RtSetting, children: nat -> seq<nat>, hasRtTasks: nat -> bool,
                         bandwidthEnabled: bool, global: RtSetting, tg: nat, proposed: RtSetting)

  function RtEffective(env: RtEnv, id: nat): RtSetting {
    if id == env.tg then env.proposed else env.setting(id)
  }

  function Ratio(env: RtEnv, id: nat): nat {
    ToRatio(RtEffective(env, id).period, RtEffective(env, id).runtime)
  }

  function GlobalRatio(env: RtEnv): nat {
    ToRatio(env.global.period, env.global.runtime)
  }

  function RatioSum(env: RtEnv, ids: seq<nat>): nat {
    if ids == [] then 0 else RatioSum(env, ids[..|ids| - 1]) + Ratio(env, ids[|ids| - 1])
  }

  /** `tg_rt_schedulable` on one group; the children's sum is an unsigned long. */
  function RtCheck(env: RtEnv, id: nat): int {
    var s := RtEffective(env, id);
    if s.runtime > s.period && s.runtime != RUNTIME_INF then -EINVAL
    else if env.bandwidthEnabled && s.runtime == 0 && env.hasRtTasks(id) then -EBUSY
    else if Ratio(env, id) > GlobalRatio(env) then -EINVAL
    else if RatioSum(env, env.children(id)) % 0x1_0000_0000 > Ratio(env, id) then -EINVAL
    else 0
  }

  function RtVisitor(env: RtEnv): Visitor<()> {
    (id: nat, data: ()) => (RtCheck(env, id), data)
  }

  lemma AddModulo(a: nat, b: nat)
    ensures (a % 0x1_0000_0000 + b) % 0x1_0000_0000 == (a + b) % 0x1_0000_0000
  {
  }

  method TgRtSchedulable(env: RtEnv, id: nat) returns (ret: int)
    ensures ret == RtCheck(env, id)
  {
    var s := env.setting(id);
    if id == env.tg {
      s := env.proposed;
    }
    if s.runtime > s.period && s.runtime != RUNTIME_INF {
      return -EINVAL;
    }
    if env.bandwidthEnabled && s.runtime == 0 && env.hasRtTasks(id) {
      return -EBUSY;
    }
    hide ToRatio;
    var total := ToRatio(s.period, s.runtime);
    if total > ToRatio(env.global.period, env.global.runtime) {
      return -EINVAL;
    }
    var children := env.children(id);
    var sum: nat := 0;
    for i := 0 to |children|
      invariant sum == RatioSum(env, children[..i]) % 0x1_0000_0000
    {
      var c := env.setting(children[i]);
      if children[i] == env.tg {
        c := env.proposed;
      }
      assert children[..i + 1][..i] == children[..i];
      AddModulo(RatioSum(env, children[..i]), ToRatio(c.period, c.runtime));
      sum := (sum + ToRatio(c.period, c.runtime)) % 0x1_0000_0000;
    }
    assert children[..|children|] == children;
    return if sum > total then -EINVAL else 0;
  }

  /** The child lists that the checks iterate are those of the tree that is walked. */
  predicate ChildrenMatch(env: RtEnv, t: Tree)
    decreases t, 1
  {
    env.children(t.id) == Ids(t.children) && AllMatch(env, t.children)
  }

  predicate AllMatch(env: RtEnv, trees: seq<Tree>)
    decreases trees, 0
  {
    trees == [] || (ChildrenMatch(env, trees[0]) && AllMatch(env, trees[1..]))
  }

  function Ids(trees: seq<Tree>): (ids: seq<nat>)
    ensures |ids| == |trees|
  {
    if trees == [] then [] else Ids(trees[..|trees| - 1]) + [trees[|trees| - 1].id]
  }

  /** What acceptance is meant to guarantee of each group, without machine arithmetic. */
  predicate RtFits(env: RtEnv, t: Tree) {
    var s := RtEffective(env, t.id);
    && (s.runtime <= s.period || s.runtime == RUNTIME_INF)
    && (env.bandwidthEnabled && s.runtime == 0 ==> !env.hasRtTasks(t.id))
    && Ratio(env, t.id) <= GlobalRatio(env)
    && RatioSum(env, Ids(t.children)) <= Ratio(env, t.id)
  }

  predicate RtFitsBelow(env: RtEnv, t: Tree)
    decreases t, 1
  {
    RtFits(env, t) && AllRtFit(env, t.children)
  }

  predicate AllRtFit(env: RtEnv, trees: seq<Tree>)
    decreases trees, 0
  {
    trees == [] || (RtFitsBelow(env, trees[0]) && AllRtFit(env, trees[1..]))
  }

  /** Every group's checks pass. */
  predicate RtChecked(env: RtEnv, t: Tree)
    decreases t, 1
  {
    RtCheck(env, t.id) == 0 && AllRtChecked(env, t.children)
  }

  predicate AllRtChecked(env: RtEnv, trees: seq<Tree>)
    decreases trees, 0
  {
    trees == [] || (RtChecked(env, trees[0]) && AllRtChecked(env, trees[1..]))
  }

  lemma {:induction false} WalkChecksAll(env: RtEnv, t: Tree)
    ensures Recurse(t, RtVisitor(env), Nop<()>(), ()).0 == 0 <==> RtChecked(env, t)
    decreases t, 1
  {
    WalkChecksSiblings(env, t.children);
  }

  lemma {:induction false} WalkChecksSiblings(env: RtEnv, trees: seq<Tree>)
    ensures RecurseAll(trees, RtVisitor(env), Nop<()>(), ()).0 == 0 <==> AllRtChecked(env, trees)
    decreases trees, 0
  {
    if trees != [] {
      WalkChecksAll(env, trees[0]);
      assert Recurse(trees[0], RtVisitor(env), Nop<()>(), ()).1 == ();
      WalkChecksSiblings(env, trees[1..]);
    }
  }

  /** The two errors: a group that would lose its last runtime while it has real-time tasks is
      busy, and every other refusal is an invalid argument. */
  lemma RtErrors(env: RtEnv, id: nat)
    ensures RtCheck(env, id) == 0 || RtCheck(env, id) == -22 || RtCheck(env, id) == -16
    ensures RtCheck(env, id) == -16 <==>
            env.bandwidthEnabled && RtEffective(env, id).runtime == 0 && env.hasRtTasks(id)
  {
    hide Ratio, GlobalRatio, RatioSum;
  }

  /** At no group does the sum over its children leave 32 bits. */
  predicate NoSumWraps(env: RtEnv, t: Tree)
    decreases t, 1
  {
    RatioSum(env, Ids(t.children)) < 0x1_0000_0000 && AllNoSumWraps(env, t.children)
  }

  predicate AllNoSumWraps(env: RtEnv, trees: seq<Tree>)
    decreases trees, 0
  {
    trees == [] || (NoSumWraps(env, trees[0]) && AllNoSumWraps(env, trees[1..]))
  }

  lemma RatioSumLast(env: RtEnv, trees: seq<Tree>)
    requires trees != []
    ensures RatioSum(env, Ids(trees))
         == RatioSum(env, Ids(trees[..|trees| - 1])) + Ratio(env, trees[|trees| - 1].id)
  {
  }

  lemma RatioFits(env: RtEnv, id: nat)
    ensures Ratio(env, id) < 0x1_0000_0000
  {
  }

  lemma {:induction false} CheckedMeansFits(env: RtEnv, t: Tree)
    requires ChildrenMatch(env, t)
    ensures RtFitsBelow(env, t) <==> RtChecked(env, t) && NoSumWraps(env, t)
    decreases t, 1
  {
    hide RtFits, RtCheck, RatioSum;
    CheckAtGroup(env, t);
    AllCheckedMeansFit(env, t.children);
  }

  lemma CheckAtGroup(env: RtEnv, t: Tree)
    requires env.children(t.id) == Ids(t.children)
    ensures RtFits(env, t) <==> RtCheck(env, t.id) == 0 && RatioSum(env, Ids(t.children)) < 0x1_0000_0000
  {
    hide Ratio, GlobalRatio, RatioSum;
    RatioFits(env, t.id);
  }

  lemma {:induction false} AllCheckedMeansFit(env: RtEnv, trees: seq<Tree>)
    requires AllMatch(env, trees)
    ensures AllRtFit(env, trees) <==> AllRtChecked(env, trees) && AllNoSumWraps(env, trees)
    decreases trees, 0
  {
    if trees != [] {
      CheckedMeansFits(env, trees[0]);
      AllCheckedMeansFit(env, trees[1..]);
    }
  }

  /** The walk over the hierarchy returns 0. */
  predicate Accepted(env: RtEnv, root: Tree) {
    Recurse(root, RtVisitor(env), Nop<()>(), ()).0 == 0
  }

  /** Every group fits exactly when the walk accepts and no sum wraps. */
  lemma RtWalkExact(env: RtEnv, root: Tree)
    requires ChildrenMatch(env, root)
    ensures RtFitsBelow(env, root) <==> Accepted(env, root) && NoSumWraps(env, root)
  {
    WalkChecksAll(env, root);
    CheckedMeansFits(env, root);
  }

  /** The total ratio of the groups of `chosen` in a tree. */
  function ChosenRatio(env: RtEnv, t: Tree, chosen: set<nat>): nat
    decreases t, 1
  {
    (if t.id in chosen then Ratio(env, t.id) else 0) + AllChosenRatio(env, t.children, chosen)
  }

  function AllChosenRatio(env: RtEnv, trees: seq<Tree>, chosen: set<nat>): nat
    decreases trees, 0
  {
    if trees == [] then 0
    else AllChosenRatio(env, trees[..|trees| - 1], chosen) + ChosenRatio(env, trees[|trees| - 1], chosen)
  }

  /** None of the groups of a tree is chosen. */
  predicate Unchosen(t: Tree, chosen: set<nat>)
    decreases t, 1
  {
    t.id !in chosen && AllUnchosen(t.children, chosen)
  }

  predicate AllUnchosen(trees: seq<Tree>, chosen: set<nat>)
    decreases trees, 0
  {
    forall i :: 0 <= i < |trees| ==> Unchosen(trees[i], chosen)
  }

  /** No chosen group lies below another. */
  predicate Antichain(t: Tree, chosen: set<nat>)
    decreases t
  {
    && (t.id in chosen ==> AllUnchosen(t.children, chosen))
    && forall i :: 0 <= i < |t.children| ==> Antichain(t.children[i], chosen)
  }

  lemma {:induction false} UnchosenIsZero(env: RtEnv, t: Tree, chosen: set<nat>)
    requires Unchosen(t, chosen)
    ensures ChosenRatio(env, t, chosen) == 0
    decreases t, 1
  {
    AllUnchosenIsZero(env, t.children, chosen);
  }

  lemma {:induction false} AllUnchosenIsZero(env: RtEnv, trees: seq<Tree>, chosen: set<nat>)
    requires AllUnchosen(trees, chosen)
    ensures AllChosenRatio(env, trees, chosen) == 0
    decreases trees, 0
  {
    if trees != [] {
      AllUnchosenIsZero(env, trees[..|trees| - 1], chosen);
      UnchosenIsZero(env, trees[|trees| - 1], chosen);
    }
  }

  lemma {:induction false} FitAt(env: RtEnv, trees: seq<Tree>, i: nat)
    requires AllRtFit(env, trees) && i < |trees|
    ensures RtFitsBelow(env, trees[i])
    decreases |trees|
  {
    if i > 0 {
      FitAt(env, trees[1..], i - 1);
    }
  }

  /** In a tree where every group fits, an antichain never asks for more than the root has. */
  lemma {:induction false} AntichainWithin(env: RtEnv, t: Tree, chosen: set<nat>)
    requires RtFitsBelow(env, t) && Antichain(t, chosen)
    ensures ChosenRatio(env, t, chosen) <= Ratio(env, t.id)
    decreases t, |t.children| + 1
  {
    if t.id in chosen {
      AllUnchosenIsZero(env, t.children, chosen);
    } else {
      ChildrenWithin(env, t, |t.children|, chosen);
      assert t.children[..|t.children|] == t.children;
    }
  }

  lemma {:induction false} ChildrenWithin(env: RtEnv, t: Tree, k: nat, chosen: set<nat>)
    requires AllRtFit(env, t.children) && k <= |t.children|
    requires forall i :: 0 <= i < |t.children| ==> Antichain(t.children[i], chosen)
    ensures AllChosenRatio(env, t.children[..k], chosen) <= RatioSum(env, Ids(t.children[..k]))
    decreases t, k
  {
    hide Antichain, RtFitsBelow, AllRtFit, Ratio, ChosenRatio, Ids, RatioSum;
    if k > 0 {
      var done := t.children[..k];
      ChildrenWithin(env, t, k - 1, chosen);
      FitAt(env, t.children, k - 1);
      AntichainWithin(env, t.children[k - 1], chosen);
      assert done[..k - 1] == t.children[..k - 1] && done[k - 1] == t.children[k - 1];
      RatioSumLast(env, done);
    }
  }

  lemma {:induction false} IdsCons(t: Tree, trees: seq<Tree>)
    ensures Ids([t] + trees) == [t.id] + Ids(trees)
    decreases |trees|
  {
    if trees == [] {
      assert [t] + trees == [t] && [t][..0] == [];
    } else {
      var n := |trees|;
      assert ([t] + trees)[..n] == [t] + trees[..n - 1];
      IdsCons(t, trees[..n - 1]);
    }
  }

  lemma {:induction false} RatioSumCons(env: RtEnv, id: nat, ids: seq<nat>)
    ensures RatioSum(env, [id] + ids) == Ratio(env, id) + RatioSum(env, ids)
    decreases |ids|
  {
    hide Ratio;
    if ids == [] {
      assert [id] + ids == [id] && [id][..0] == [];
    } else {
      assert ([id] + ids)[..|ids|] == [id] + ids[..|ids| - 1];
      RatioSumCons(env, id, ids[..|ids| - 1]);
    }
  }

  /** One more tree in front of its siblings. */
  lemma SumCons(env: RtEnv, t: Tree, trees: seq<Tree>)
    ensures RatioSum(env, Ids([t] + trees)) == Ratio(env, t.id) + RatioSum(env, Ids(trees))
  {
    IdsCons(t, trees);
    RatioSumCons(env, t.id, Ids(trees));
  }

  // ---------------------------------------------------------------------------
  // one change at a time
  // ---------------------------------------------------------------------------

  /** `e` is `e0` but for the setting of the group that `e` proposes to change. */
  ghost predicate OneChange(e0: RtEnv, e: RtEnv) {
    forall id: nat | id != e.tg :: RtEffective(e, id) == RtEffective(e0, id)
  }

  /** A group's ratio is at most one, since its runtime is at most its period. */
  lemma RatioAtMostOne(env: RtEnv, id: nat)
    requires var s := RtEffective(env, id); s.runtime <= s.period || s.runtime == RUNTIME_INF
    ensures Ratio(env, id) <= 0x10_0000
  {
    ToRatioAtMostOne(RtEffective(env, id).period, RtEffective(env, id).runtime);
  }

  lemma ToRatioAtMostOne(period: Period, runtime: nat)
    requires runtime <= period || runtime == RUNTIME_INF
    ensures ToRatio(period, runtime) <= 0x10_0000
  {
    hide Quotient, Low64;
    if runtime != RUNTIME_INF {
      LowAtMost(runtime * 0x10_0000);
      QuotientAtMost(Low64(runtime * 0x10_0000), period, 0x10_0000);
    }
  }

  lemma LowAtMost(v: nat)
    ensures Low64(v) <= v
  {
  }

  lemma QuotientAtMost(v: nat, period: Period, most: nat)
    requires v <= period * most
    ensures Quotient(v, period) <= most
  {
    assert period * (v / period) <= v;
    Cancel(period, v / period, most);
  }

  lemma Cancel(period: Period, a: nat, b: nat)
    requires period * a <= period * b
    ensures a <= b
  {
  }

  /** The siblings' sum grows by at most one, the ratio of the changed group. */
  lemma {:induction false} SumAfterChange(e0: RtEnv, e: RtEnv, trees: seq<Tree>)
    requires OneChange(e0, e) && AllDistinct(trees) && AllRtChecked(e, trees)
    ensures RatioSum(e, Ids(trees)) <= RatioSum(e0, Ids(trees)) + 0x10_0000
    ensures e.tg !in AllIds(trees) ==> RatioSum(e, Ids(trees)) == RatioSum(e0, Ids(trees))
  {
    if trees != [] {
      var t := trees[0];
      RatioAtMostOne(e, t.id);
      SumAfterChange(e0, e, trees[1..]);
      assert trees == [t] + trees[1..];
      SumCons(e, t, trees[1..]);
      SumCons(e0, t, trees[1..]);
      hide RtCheck, ToRatio, Ids, RatioSum;
    }
  }

  /** From settings that fit, no single accepted change makes a sum wrap. */
  lemma {:induction false} NoWrapAfterChange(e0: RtEnv, e: RtEnv, t: Tree)
    requires OneChange(e0, e) && Distinct(t) && RtFitsBelow(e0, t) && RtChecked(e, t)
    ensures NoSumWraps(e, t)
    decreases t, 1
  {
    RatioAtMostOne(e0, t.id);
    SumAfterChange(e0, e, t.children);
    AllNoWrapAfterChange(e0, e, t.children);
  }

  lemma {:induction false} AllNoWrapAfterChange(e0: RtEnv, e: RtEnv, trees: seq<Tree>)
    requires OneChange(e0, e) && AllDistinct(trees) && AllRtFit(e0, trees) && AllRtChecked(e, trees)
    ensures AllNoSumWraps(e, trees)
    decreases trees, 0
  {
    if trees != [] {
      NoWrapAfterChange(e0, e, trees[0]);
      AllNoWrapAfterChange(e0, e, trees[1..]);
    }
  }

  /** Against settings in force that fit, the walk accepts a change exactly when every group
      fits afterwards: the 32-bit sum decides as the unbounded one would. */
  lemma ChangeIsExact(e0: RtEnv, e: RtEnv, root: Tree)
    requires OneChange(e0, e) && Distinct(root) && RtFitsBelow(e0, root) && ChildrenMatch(e, root)
    ensures Accepted(e, root) <==> RtFitsBelow(e, root)
  {
    RtWalkExact(e, root);
    WalkChecksAll(e, root);
    if Accepted(e, root) {
      NoWrapAfterChange(e0, e, root);
    }
  }

  /** And then the ratios of any groups, none of which contains another, add up to at most the
      root's ratio, which is at most the global one. */
  lemma AcceptedIsFeasible(e0: RtEnv, e: RtEnv, root: Tree, chosen: set<nat>)
    requires OneChange(e0, e) && Distinct(root) && RtFitsBelow(e0, root) && ChildrenMatch(e, root)
    ensures Accepted(e, root) && Antichain(root, chosen) ==>
      ChosenRatio(e, root, chosen) <= Ratio(e, root.id) <= GlobalRatio(e)
  {
    ChangeIsExact(e0, e, root);
    if Accepted(e, root) && Antichain(root, chosen) {
      AntichainWithin(e, root, chosen);
    }
  }

  // -- what a ratio is worth

  /** What a setting grants of a CPU; no limit counts as all of it. */
  function RealShare(s: RtSetting): real {
    if s.runtime == RUNTIME_INF then 1.0 else s.runtime as real / s.period as real
  }

  /** No limit, or one within the period that the 64-bit shift keeps. */
  predicate Short(s: RtSetting) {
    s.runtime == RUNTIME_INF || (s.runtime <= s.period && s.runtime < 0x1000_0000_0000)
  }

  /** No runtime within its period outweighs no limit. */
  lemma NoLimitIsMost(period: Period, runtime: nat, period': Period)
    requires runtime <= period
    ensures ToRatio(period, runtime) <= ToRatio(period', RUNTIME_INF)
  {
    ToRatioAtMostOne(period, runtime);
    hide Quotient, Low64;
  }

  lemma RatioIsShare(s: RtSetting)
    requires Short(s)
    ensures ToRatio(s.period, s.runtime) as real <= 1048576.0 * RealShare(s) < ToRatio(s.period, s.runtime) as real + 1.0
  {
    if s.runtime != RUNTIME_INF {
      RtRatioIsFloor(s.period, s.runtime);
    }
    hide Quotient, Low64;
  }

  /** In 64 bits the shift keeps a runtime within its period exactly below 2^44 nanoseconds, not
      quite five hours; the period is a signed 64-bit time. */
  lemma RtTruncatesUnless(period: Period, runtime: nat)
    requires runtime <= period < 0x8000_0000_0000_0000 && runtime < RUNTIME_INF
    ensures ToRatio(period, runtime) == runtime * 0x10_0000 / period <==> runtime < 0x1000_0000_0000
  {
    if runtime < 0x1000_0000_0000 {
      TruncatesUnless(period, runtime);
    } else {
      var v := runtime * 0x10_0000;
      LostHighWord(v, period);
      assert ToRatio(period, runtime) <= Quotient(Low64(v), period);
      hide Quotient, Low64;
    }
  }

  lemma LostHighWord(v: nat, period: Period)
    requires v >= 0x1_0000_0000_0000_0000 && period < 0x8000_0000_0000_0000
    ensures Quotient(Low64(v), period) < v / period
  {
    var low := Low64(v);
    assert low + 2 * period < v;
    assert period * (low / period) <= low && v < period * (v / period) + period;
    if v / period <= low / period {
      Multiply(period, v / period, low / period);
      assert false;
    }
  }

  /** Such a runtime can count as nothing: all of a period of 2^44 nanoseconds does. */
  lemma LongRuntimeCountsAsNothing()
    ensures ToRatio(0x1000_0000_0000, 0x1000_0000_0000) == 0 && RealShare(RtSetting(0x1000_0000_0000, 0x1000_0000_0000)) == 1.0
  {
    assert Low64(0x1000_0000_0000 * 0x10_0000) == 0;
  }

  function ShareSum(env: RtEnv, ids: seq<nat>): real {
    if ids == [] then 0.0 else ShareSum(env, ids[..|ids| - 1]) + RealShare(RtEffective(env, ids[|ids| - 1]))
  }

  lemma {:induction false} SumIsShares(env: RtEnv, ids: seq<nat>)
    requires forall id <- ids :: Short(RtEffective(env, id))
    ensures RatioSum(env, ids) as real <= 1048576.0 * ShareSum(env, ids) <= RatioSum(env, ids) as real + |ids| as real
  {
    hide ToRatio, RealShare, Short;
    if ids != [] {
      SumIsShares(env, ids[..|ids| - 1]);
      RatioIsShare(RtEffective(env, ids[|ids| - 1]));
    }
  }

  /** `RtFits` in real ratios. */
  predicate RealRtFits(env: RtEnv, t: Tree) {
    var s := RtEffective(env, t.id);
    && (s.runtime <= s.period || s.runtime == RUNTIME_INF)
    && (env.bandwidthEnabled && s.runtime == 0 ==> !env.hasRtTasks(t.id))
    && RealShare(s) <= RealShare(env.global)
    && ShareSum(env, Ids(t.children)) <= RealShare(s)
  }

  predicate RealRtFitsBelow(env: RtEnv, t: Tree)
    decreases t, 1
  {
    RealRtFits(env, t) && AllRealRtFit(env, t.children)
  }

  predicate AllRealRtFit(env: RtEnv, trees: seq<Tree>)
    decreases trees, 0
  {
    trees == [] || (RealRtFitsBelow(env, trees[0]) && AllRealRtFit(env, trees[1..]))
  }

  /** The runtimes that matter to the check of a group. */
  predicate ShortAround(env: RtEnv, t: Tree) {
    Short(env.global) && Short(RtEffective(env, t.id)) && forall id <- Ids(t.children) :: Short(RtEffective(env, id))
  }

  /** What really fits passes; what passes really fits up to a 2^-20th for the group itself and
      one for each child. */
  lemma FitsInRealRatios(env: RtEnv, t: Tree)
    requires ShortAround(env, t)
    ensures RealRtFits(env, t) ==> RtFits(env, t)
    ensures RtFits(env, t) ==>
      && RealShare(RtEffective(env, t.id)) <= RealShare(env.global) + UNIT
      && ShareSum(env, Ids(t.children)) <= RealShare(RtEffective(env, t.id)) + |t.children| as real * UNIT
  {
    hide ToRatio, RealShare, Short;
    RatioIsShare(env.global);
    RatioIsShare(RtEffective(env, t.id));
    SumIsShares(env, Ids(t.children));
  }

  predicate AllShort(env: RtEnv, t: Tree)
    decreases t, 1
  {
    ShortAround(env, t) && forall i: nat | i < |t.children| :: AllShort(env, t.children[i])
  }

  /** A hierarchy that fits in real ratios is never refused. */
  lemma {:induction false} RealFitsIsAccepted(env: RtEnv, t: Tree)
    requires AllShort(env, t) && RealRtFitsBelow(env, t)
    ensures RtFitsBelow(env, t)
    decreases t, |t.children| + 1
  {
    hide RtFits, RealRtFits, ShortAround;
    FitsInRealRatios(env, t);
    AllRealFitAccepted(env, t, 0);
  }

  lemma {:induction false} AllRealFitAccepted(env: RtEnv, t: Tree, i: nat)
    requires AllShort(env, t) && i <= |t.children| && AllRealRtFit(env, t.children[i..])
    ensures AllRtFit(env, t.children[i..])
    decreases t, |t.children| - i
  {
    if i < |t.children| {
      assert t.children[i..][1..] == t.children[i + 1..];
      RealFitsIsAccepted(env, t.children[i]);
      AllRealFitAccepted(env, t, i + 1);
    }
  }

  /** Without a global limit no group is refused for it; a group without a limit takes any
      children whose shares add up to at most one. */
  lemma NoLimitRefusesNothing(env: RtEnv, t: Tree)
    requires ShortAround(env, t)
    ensures env.global.runtime == RUNTIME_INF ==> Ratio(env, t.id) <= GlobalRatio(env)
    ensures RtEffective(env, t.id).runtime == RUNTIME_INF && ShareSum(env, Ids(t.children)) <= 1.0 ==>
      RatioSum(env, Ids(t.children)) <= Ratio(env, t.id)
  {
    hide ToRatio;
    RatioIsShare(env.global);
    RatioIsShare(RtEffective(env, t.id));
    ToRatioAtMostOne(RtEffective(env, t.id).period, RtEffective(env, t.id).runtime);
    SumIsShares(env, Ids(t.children));
  }

  /** `__rt_schedulable`: walk the whole hierarchy with the real-time visitor.  The ghost `e0`
      is the settings in force. */
  method RtSchedulable(groups: seq<Group>, ghost root: Tree, rootId: nat, ghost e0: RtEnv, env: RtEnv) returns (ret: int)
    requires Linked(groups, root) && root.id == rootId && ChildrenMatch(env, root)
    requires OneChange(e0, env) && Distinct(root) && RtFitsBelow(e0, root)
    ensures ret == 0 <==> RtFitsBelow(env, root)
    ensures AllShort(env, root) && RealRtFitsBelow(env, root) ==> ret == 0
  {
    ChangeIsExact(e0, env, root);
    if AllShort(env, root) && RealRtFitsBelow(env, root) {
      RealFitsIsAccepted(env, root);
    }
    var nothing;
    ret, nothing := WalkTgTreeFrom(groups, root, rootId, RtVisitor(env), Nop<()>(), ());
  }

  // ---------------------------------------------------------------------------
  // whole runs from boot
  // ---------------------------------------------------------------------------

  datatype RtHierarchy = RtHierarchy(root: Tree, setting: nat -> RtSetting, global: RtSetting)

  /** The settings in force, as a check that proposes nothing would see them. */
  function InForce(h: RtHierarchy): RtEnv {
    RtEnv(h.setting, _ => [], _ => false, false, h.global, 0, h.setting(0))
  }

  predicate Feasible(h: RtHierarchy) {
    Distinct(h.root) && RtFitsBelow(InForce(h), h.root)
  }

  /** `list_add` of a new group to the children of `parent`. */
  function AddGroup(t: Tree, parent: nat, id: nat): Tree
    decreases t, 1
  {
    if t.id == parent then Tree(t.id, [Tree(id, [])] + t.children) else Tree(t.id, AddBelow(t.children, parent, id))
  }

  function AddBelow(trees: seq<Tree>, parent: nat, id: nat): seq<Tree>
    decreases trees, 0
  {
    if trees == [] then [] else [AddGroup(trees[0], parent, id)] + AddBelow(trees[1..], parent, id)
  }

  /** `list_del` of a group. */
  function DropGroup(t: Tree, id: nat): Tree
    decreases t, 1
  {
    Tree(t.id, DropBelow(t.children, id))
  }

  function DropBelow(trees: seq<Tree>, id: nat): seq<Tree>
    decreases trees, 0
  {
    if trees == [] then []
    else if trees[0].id == id then DropBelow(trees[1..], id)
    else [DropGroup(trees[0], id)] + DropBelow(trees[1..], id)
  }

  /** A check carries what else it sees: child lists, real-time tasks, the switch. */
  datatype RtStep =
    | Create(parent: nat, id: nat, period: Period)
    | Destroy(id: nat)
    | SetBandwidth(e: RtEnv)
    | SetGlobal(e: RtEnv)

  /** The check looks at the settings in force; the one for a new global setting proposes a
      change to no group. */
  ghost predicate Legal(h: RtHierarchy, step: RtStep) {
    match step
    case Create(_, id, _) => id !in TreeIds(h.root)
    case Destroy(id) => id != h.root.id
    case SetBandwidth(e) => e.global == h.global && ChildrenMatch(e, h.root) && forall id: nat :: e.setting(id) == h.setting(id)
    case SetGlobal(e) =>
      e.tg !in TreeIds(h.root) && ChildrenMatch(e, h.root) && forall id: nat :: e.setting(id) == h.setting(id)
  }

  function Stored(setting: nat -> RtSetting, tg: nat, proposed: RtSetting): nat -> RtSetting {
    (id: nat) => if id == tg then proposed else setting(id)
  }

  /** A new group starts with no runtime.  A refused change leaves everything as it was. */
  function RtNext(h: RtHierarchy, step: RtStep): RtHierarchy {
    match step
    case Create(parent, id, period) =>
      h.(root := AddGroup(h.root, parent, id), setting := Stored(h.setting, id, RtSetting(period, 0)))
    case Destroy(id) => h.(root := DropGroup(h.root, id))
    case SetBandwidth(e) => if Accepted(e, h.root) then h.(setting := Stored(h.setting, e.tg, e.proposed)) else h
    case SetGlobal(e) =>
      if (e.global.runtime <= e.global.period || e.global.runtime == RUNTIME_INF) && Accepted(e, h.root)
      then h.(global := e.global) else h
  }

  /** Two checks that see the same settings in a tree, the second with nothing to enforce for
      real-time tasks. */
  lemma {:induction false} FitsWithoutTasks(e: RtEnv, e': RtEnv, t: Tree)
    requires RtFitsBelow(e, t) && e'.global == e.global && !e'.bandwidthEnabled
    requires forall id <- TreeIds(t) :: RtEffective(e', id) == RtEffective(e, id)
    ensures RtFitsBelow(e', t)
    decreases t, 1
  {
    AllFitWithoutTasks(e, e', t.children);
    SumSame(e, e', t.children);
    assert t.id in TreeIds(t);
  }

  lemma {:induction false} AllFitWithoutTasks(e: RtEnv, e': RtEnv, trees: seq<Tree>)
    requires AllRtFit(e, trees) && e'.global == e.global && !e'.bandwidthEnabled
    requires forall id <- AllIds(trees) :: RtEffective(e', id) == RtEffective(e, id)
    ensures AllRtFit(e', trees)
    decreases trees, 0
  {
    if trees != [] {
      FitsWithoutTasks(e, e', trees[0]);
      AllFitWithoutTasks(e, e', trees[1..]);
    }
  }

  lemma {:induction false} SumSame(e: RtEnv, e': RtEnv, trees: seq<Tree>)
    requires forall id <- AllIds(trees) :: RtEffective(e', id) == RtEffective(e, id)
    ensures RatioSum(e', Ids(trees)) == RatioSum(e, Ids(trees))
  {
    if trees != [] {
      SumSame(e, e', trees[1..]);
      assert trees == [trees[0]] + trees[1..];
      SumCons(e, trees[0], trees[1..]);
      SumCons(e', trees[0], trees[1..]);
      assert trees[0].id in TreeIds(trees[0]);
    }
  }

  /** A new group without runtime asks for nothing. */
  lemma {:induction false} AddKeeps(e: RtEnv, t: Tree, parent: nat, id: nat)
    requires RtFitsBelow(e, t) && Distinct(t) && id !in TreeIds(t)
    requires !e.bandwidthEnabled && RtEffective(e, id).runtime == 0
    ensures var t' := AddGroup(t, parent, id);
      && t'.id == t.id && TreeIds(t') == TreeIds(t) + (if parent in TreeIds(t) then {id} else {})
      && Distinct(t') && RtFitsBelow(e, t')
    decreases t, 1
  {
    if t.id == parent {
      SumCons(e, Tree(id, []), t.children);
      NewGroupFits(e, id);
      InFront(e, Tree(id, []), t.children);
    } else {
      AddBelowKeeps(e, t.children, parent, id);
    }
  }

  lemma NewGroupFits(e: RtEnv, id: nat)
    requires !e.bandwidthEnabled && RtEffective(e, id).runtime == 0
    ensures Ratio(e, id) == 0 && RtFitsBelow(e, Tree(id, [])) && Distinct(Tree(id, [])) && TreeIds(Tree(id, [])) == {id}
  {
    assert Ids([]) == [];
  }

  lemma InFront(e: RtEnv, t: Tree, trees: seq<Tree>)
    ensures AllIds([t] + trees) == TreeIds(t) + AllIds(trees)
    ensures AllDistinct([t] + trees) <==> TreeIds(t) !! AllIds(trees) && Distinct(t) && AllDistinct(trees)
    ensures AllRtFit(e, [t] + trees) <==> RtFitsBelow(e, t) && AllRtFit(e, trees)
  {
    assert ([t] + trees)[1..] == trees;
  }

  lemma {:induction false} AddBelowKeeps(e: RtEnv, trees: seq<Tree>, parent: nat, id: nat)
    requires AllRtFit(e, trees) && AllDistinct(trees) && id !in AllIds(trees)
    requires !e.bandwidthEnabled && RtEffective(e, id).runtime == 0
    ensures var trees' := AddBelow(trees, parent, id);
      && AllIds(trees') == AllIds(trees) + (if parent in AllIds(trees) then {id} else {})
      && AllDistinct(trees') && AllRtFit(e, trees')
      && RatioSum(e, Ids(trees')) == RatioSum(e, Ids(trees))
    decreases trees, 0
  {
    hide RtFitsBelow, Distinct, Ids, RatioSum, Ratio, AddGroup;
    if trees != [] {
      var t, t' := trees[0], AddGroup(trees[0], parent, id);
      var rest := AddBelow(trees[1..], parent, id);
      AddKeeps(e, t, parent, id);
      AddBelowKeeps(e, trees[1..], parent, id);
      assert trees == [t] + trees[1..];
      InFront(e, t', rest);
      InFront(e, t, trees[1..]);
      SumCons(e, t, trees[1..]);
      SumCons(e, t', rest);
      hide AllDistinct, AllRtFit, AllIds, TreeIds;
    }
  }

  /** A group that goes away asks for nothing any more. */
  lemma {:induction false} DropKeeps(e: RtEnv, t: Tree, id: nat)
    requires RtFitsBelow(e, t) && Distinct(t)
    ensures var t' := DropGroup(t, id);
      t'.id == t.id && TreeIds(t') <= TreeIds(t) && Distinct(t') && RtFitsBelow(e, t')
    decreases t, 1
  {
    DropBelowKeeps(e, t.children, id);
  }

  lemma {:induction false} DropBelowKeeps(e: RtEnv, trees: seq<Tree>, id: nat)
    requires AllRtFit(e, trees) && AllDistinct(trees)
    ensures var trees' := DropBelow(trees, id);
      && AllIds(trees') <= AllIds(trees) && AllDistinct(trees') && AllRtFit(e, trees')
      && RatioSum(e, Ids(trees')) <= RatioSum(e, Ids(trees))
    decreases trees, 0
  {
    if trees != [] {
      var t, rest := trees[0], DropBelow(trees[1..], id);
      DropBelowKeeps(e, trees[1..], id);
      DropKeeps(e, t, id);
      assert trees == [t] + trees[1..];
      hide RtFitsBelow, Distinct, Ids, RatioSum, Ratio, DropGroup;
      InFront(e, DropGroup(t, id), rest);
      SumCons(e, t, trees[1..]);
      SumCons(e, DropGroup(t, id), rest);
    }
  }

  lemma RtNextKeeps(h: RtHierarchy, step: RtStep)
    requires Feasible(h) && Legal(h, step)
    ensures Feasible(RtNext(h, step))
  {
    var h' := RtNext(h, step);
    match step
    case Create(parent, id, period) =>
      FitsWithoutTasks(InForce(h), InForce(h'), h.root);
      AddKeeps(InForce(h'), h.root, parent, id);
    case Destroy(id) => DropKeeps(InForce(h), h.root, id);
    case SetBandwidth(e) =>
      ChangeIsExact(InForce(h), e, h.root);
      if Accepted(e, h.root) {
        FitsWithoutTasks(e, InForce(h'), h.root);
      }
    case SetGlobal(e) =>
      ChangeIsExact(InForce(h), e, h.root);
      if h' != h {
        FitsWithoutTasks(e, InForce(h'), h.root);
      }
  }

  /** `sched_init`: the root group alone, with the global setting. */
  function RtBoot(root: nat, global: RtSetting): RtHierarchy {
    RtHierarchy(Tree(root, []), _ => global, global)
  }

  ghost predicate IsRtRun(states: seq<RtHierarchy>, steps: seq<RtStep>) {
    && |states| == |steps| + 1
    && forall k: nat | k < |steps| :: Legal(states[k], steps[k]) && states[k + 1] == RtNext(states[k], steps[k])
  }

  /** Every hierarchy that creating and removing groups and changing settings can reach from
      boot is feasible, and no check on the way went wrong through 32-bit arithmetic. */
  lemma {:induction false} ReachableIsFeasible(root: nat, global: RtSetting, states: seq<RtHierarchy>, steps: seq<RtStep>, n: nat)
    requires global.runtime <= global.period || global.runtime == RUNTIME_INF
    requires IsRtRun(states, steps) && states[0] == RtBoot(root, global) && n < |states|
    ensures Feasible(states[n])
    ensures forall chosen | Antichain(states[n].root, chosen) ::
      ChosenRatio(InForce(states[n]), states[n].root, chosen)
        <= Ratio(InForce(states[n]), states[n].root.id) <= GlobalRatio(InForce(states[n]))
  {
    if n > 0 {
      ReachableIsFeasible(root, global, states, steps, n - 1);
      RtNextKeeps(states[n - 1], steps[n - 1]);
    } else {
      assert Ids([]) == [];
    }
    FeasibleAntichains(states[n]);
  }

  lemma FeasibleAntichains(h: RtHierarchy)
    requires Feasible(h)
    ensures forall chosen | Antichain(h.root, chosen) ::
      ChosenRatio(InForce(h), h.root, chosen) <= Ratio(InForce(h), h.root.id) <= GlobalRatio(InForce(h))
  {
    forall chosen | Antichain(h.root, chosen)
      ensures ChosenRatio(InForce(h), h.root, chosen) <= Ratio(InForce(h), h.root.id) <= GlobalRatio(InForce(h))
    {
      AntichainWithin(InForce(h), h.root, chosen);
    }
  }

  // ---------------------------------------------------------------------------
  // CFS quotas
  // ---------------------------------------------------------------------------

  /** RUNTIME_INF read as an s64. */
  const NO_LIMIT: int := -1

  /** A group's quota and period; `quota == NO_LIMIT` for none. */
  datatype CfsSetting = CfsSetting(period: Period, quota: int)

  datatype CfsEnv = CfsEnv(groups: seq<Group>, setting: nat -> CfsSetting, tg: nat, proposed: CfsSetting)

  /** The `hierarchal_quota` fields, as far as they were written. */
  type Quotas = map<nat, int>

  function Field(quotas: Quotas, id: nat): int {
    if id in quotas then quotas[id] else 0
  }

  function CfsEffective(env: CfsEnv, id: nat): CfsSetting {
    if id == env.tg then env.proposed else env.setting(id)
  }

  /** `normalize_cfs_quota`. */
  function Normalized(env: CfsEnv, id: nat): int {
    var s := CfsEffective(env, id);
    if s.quota < 0 then NO_LIMIT else ToRatio(s.period, s.quota)
  }

  predicate Limited(env: CfsEnv, id: nat) {
    CfsEffective(env, id).quota >= 0
  }

  // -- what a normalized quota is worth

  /** The quota in 2^-20ths of the period keeps its value in 32 bits if and only if it is less
      than 4096 periods. */
  lemma TruncatesUnless(period: Period, quota: nat)
    requires quota < 0x1000_0000_0000
    ensures ToRatio(period, quota) == quota * 0x10_0000 / period <==> quota < 4096 * period
  {
    var v := quota * 0x10_0000;
    assert Low64(v) == v;
    assert Quotient(v, period) == v / period;
    BelowMultiple(v, period, 0x1_0000_0000);
    hide Quotient, Low64;
  }

  lemma BelowMultiple(v: nat, period: Period, most: nat)
    ensures v / period < most <==> v < period * most
  {
    assert period * (v / period) <= v < period * (v / period) + period;
    if v / period < most {
      assert period * (v / period + 1) == period * (v / period) + period;
      Multiply(period, v / period + 1, most);
    } else {
      Multiply(period, most, v / period);
    }
  }

  lemma Multiply(period: Period, a: nat, b: nat)
    requires a <= b
    ensures period * a <= period * b
  {
  }

  /** A real-time ratio is the real one in 2^-20ths, rounded down: runtimes within the period
      never truncate. */
  lemma RtRatioIsFloor(period: Period, runtime: nat)
    requires runtime <= period && runtime < 0x1000_0000_0000
    ensures ToRatio(period, runtime) as real <= 1048576.0 * (runtime as real / period as real)
                                             < ToRatio(period, runtime) as real + 1.0
  {
    TruncatesUnless(period, runtime);
    FloorOf(runtime, period, runtime * 0x10_0000 / period);
  }

  /** The code accepts quotas beyond that: 4.096 seconds in every millisecond count as nothing
      and pass under any limit. */
  lemma HugeQuotaPasses(env: CfsEnv, id: nat, path: seq<nat>)
    requires CfsEffective(env, id) == CfsSetting(1000, 4_096_000)
    ensures Normalized(env, id) == 0 && RealRatio(env, id) == 4096.0 && Fits(env, id, path)
  {
    PathLimitIsMinimum(env, path);
    if PathLimit(env, path) != NO_LIMIT {
      var k :| 0 <= k < |path| && Normalized(env, path[k]) == PathLimit(env, path);
      assert Normalized(env, path[k]) >= 0;
    }
  }

  function RealRatio(env: CfsEnv, id: nat): real
    requires Limited(env, id)
  {
    CfsEffective(env, id).quota as real / CfsEffective(env, id).period as real
  }

  /** No limit, or one whose ratio fits. */
  predicate Plain(env: CfsEnv, id: nat) {
    var s := CfsEffective(env, id);
    s.quota < 0 || (s.quota < 0x1000_0000_0000 && s.quota < 4096 * s.period)
  }

  /** Then the normalized quota is the real ratio in 2^-20ths, rounded down. */
  lemma NormalizedIsFloor(env: CfsEnv, id: nat)
    requires Plain(env, id) && Limited(env, id)
    ensures Normalized(env, id) >= 0
    ensures Normalized(env, id) as real <= 1048576.0 * RealRatio(env, id) < Normalized(env, id) as real + 1.0
  {
    var s := CfsEffective(env, id);
    TruncatesUnless(s.period, s.quota);
    FloorOf(s.quota, s.period, s.quota * 0x10_0000 / s.period);
  }

  lemma FloorOf(quota: nat, period: Period, n: nat)
    requires n == quota * 0x10_0000 / period
    ensures n as real <= 1048576.0 * (quota as real / period as real) < n as real + 1.0
  {
    assert period * n <= quota * 0x10_0000 < period * n + period;
    RealQuotient(quota as real, period as real, n as real, (period * n) as real);
  }

  lemma RealQuotient(quota: real, period: real, n: real, product: real)
    requires period > 0.0 && product == period * n
    requires product <= 1048576.0 * quota < product + period
    ensures n <= 1048576.0 * (quota / period) < n + 1.0
  {
    var r := quota / period;
    assert period * r == quota;
    assert period * (1048576.0 * r) == 1048576.0 * quota;
    assert period * (n + 1.0) == product + period;
    RealCancel(period, n, 1048576.0 * r);
    RealCancel(period, 1048576.0 * r, n + 1.0);
  }

  lemma RealCancel(period: real, a: real, b: real)
    requires period > 0.0
    ensures period * a <= period * b ==> a <= b
    ensures period * a < period * b ==> a < b
  {
    if a > b {
      assert period * (a - b) > 0.0;
    }
  }

  /** A group's real ratio exceeds that of no limited group on `path` by more than `slack`. */
  predicate RealFits(env: CfsEnv, id: nat, path: seq<nat>, slack: real) {
    Limited(env, id) ==>
      forall k: nat | k < |path| && Limited(env, path[k]) :: RealRatio(env, id) <= RealRatio(env, path[k]) + slack
  }

  /** A 2^-20th, what rounding can hide. */
  const UNIT: real := 1.0 / 1048576.0

  lemma FitsMeans(env: CfsEnv, id: nat, path: seq<nat>)
    requires Plain(env, id) && forall k: nat | k < |path| :: Plain(env, path[k])
    ensures RealFits(env, id, path, 0.0) ==> Fits(env, id, path)
    ensures Fits(env, id, path) ==> RealFits(env, id, path, UNIT)
  {
    PathLimitIsMinimum(env, path);
    if Limited(env, id) {
      NormalizedIsFloor(env, id);
      forall k: nat | k < |path| && Limited(env, path[k])
        ensures RealFits(env, id, path, 0.0) ==> Normalized(env, id) <= Normalized(env, path[k])
        ensures Normalized(env, id) <= Normalized(env, path[k]) ==> RealRatio(env, id) <= RealRatio(env, path[k]) + UNIT
      {
        NormalizedIsFloor(env, path[k]);
      }
    }
  }

  predicate AllPlain(env: CfsEnv, ids: set<nat>) {
    forall id <- ids :: Plain(env, id)
  }

  /** No real ratio below a group with path `path` exceeds one above it by more than `slack`. */
  predicate RealTightening(env: CfsEnv, t: Tree, path: seq<nat>, slack: real)
    decreases t, 1
  {
    RealFits(env, t.id, path, slack) && AllRealTightening(env, t.children, path + [t.id], slack)
  }

  predicate AllRealTightening(env: CfsEnv, trees: seq<Tree>, path: seq<nat>, slack: real)
    decreases trees, 0
  {
    trees == [] || (RealTightening(env, trees[0], path, slack) && AllRealTightening(env, trees[1..], path, slack))
  }

  lemma {:induction false} TighteningMeans(env: CfsEnv, t: Tree, path: seq<nat>)
    requires AllPlain(env, TreeIds(t)) && forall k: nat | k < |path| :: Plain(env, path[k])
    ensures RealTightening(env, t, path, 0.0) ==> Tightening(env, t, path)
    ensures Tightening(env, t, path) ==> RealTightening(env, t, path, UNIT)
    decreases t, 1
  {
    assert t.id in TreeIds(t);
    FitsMeans(env, t.id, path);
    AllTighteningMeans(env, t.children, path + [t.id]);
  }

  /** With quotas that fit, the walk accepts every hierarchy in which no real ratio exceeds one
      above it, and none in which one does by more than a 2^-20th. */
  lemma {:induction false} AllTighteningMeans(env: CfsEnv, trees: seq<Tree>, path: seq<nat>)
    requires AllPlain(env, AllIds(trees)) && forall k: nat | k < |path| :: Plain(env, path[k])
    ensures AllRealTightening(env, trees, path, 0.0) ==> AllTightening(env, trees, path)
    ensures AllTightening(env, trees, path) ==> AllRealTightening(env, trees, path, UNIT)
    decreases trees, 0
  {
    if trees != [] {
      TighteningMeans(env, trees[0], path);
      AllTighteningMeans(env, trees[1..], path);
    }
  }

  /** The tightest limit on a path is the smallest real ratio on it, rounded down. */
  lemma PathLimitIsRealMinimum(env: CfsEnv, path: seq<nat>)
    requires forall k: nat | k < |path| :: Plain(env, path[k])
    ensures PathLimit(env, path) == NO_LIMIT <==> forall k: nat | k < |path| :: !Limited(env, path[k])
    ensures PathLimit(env, path) != NO_LIMIT ==>
      && (forall k: nat | k < |path| && Limited(env, path[k]) :: PathLimit(env, path) as real <= 1048576.0 * RealRatio(env, path[k]))
      && exists k: nat | k < |path| && Limited(env, path[k]) :: 1048576.0 * RealRatio(env, path[k]) < PathLimit(env, path) as real + 1.0
  {
    PathLimitIsMinimum(env, path);
    forall k: nat | k < |path| && Limited(env, path[k])
      ensures Normalized(env, path[k]) >= 0
      ensures Normalized(env, path[k]) as real <= 1048576.0 * RealRatio(env, path[k]) < Normalized(env, path[k]) as real + 1.0
    {
      NormalizedIsFloor(env, path[k]);
    }
    if PathLimit(env, path) != NO_LIMIT {
      var k :| 0 <= k < |path| && Normalized(env, path[k]) == PathLimit(env, path);
      assert Limited(env, path[k]);
    }
  }

  function ParentOf(env: CfsEnv, id: nat): Link {
    if id < |env.groups| then env.groups[id].parent else Nil
  }

  /** `tg_cfs_schedulable_down`: the result and the fields afterwards. */
  function CfsDown(env: CfsEnv, id: nat, quotas: Quotas): (int, Quotas) {
    match ParentOf(env, id)
    case Nil => (0, quotas[id := NO_LIMIT])
    case To(parent) =>
      var quota, above := Normalized(env, id), Field(quotas, parent);
      if quota == NO_LIMIT then (0, quotas[id := above])
      else if above != NO_LIMIT && quota > above then (-EINVAL, quotas)
      else (0, quotas[id := quota])
  }

  function CfsVisitor(env: CfsEnv): Visitor<Quotas> {
    (id: nat, quotas: Quotas) => CfsDown(env, id, quotas)
  }

  class Hierarchy {
    var hierarchalQuota: Quotas

    method TgCfsSchedulableDown(env: CfsEnv, id: nat) returns (ret: int)
      modifies this
      ensures (ret, hierarchalQuota) == CfsDown(env, id, old(hierarchalQuota))
    {
      var quota := 0;
      if ParentOf(env, id) == Nil {
        quota := NO_LIMIT;
      } else {
        quota := Normalized(env, id);
        var above := Field(hierarchalQuota, ParentOf(env, id).id);
        if quota == NO_LIMIT {
          quota := above;
        } else if above != NO_LIMIT && quota > above {
          return -EINVAL;
        }
      }
      hierarchalQuota := hierarchalQuota[id := quota];
      return 0;
    }
  }

  /** The tighter of two limits, NO_LIMIT being no limit. */
  function Tighter(a: int, b: int): int {
    if a == NO_LIMIT then b else if b == NO_LIMIT then a else if a <= b then a else b
  }

  /** The tightest limit on a path of groups. */
  function PathLimit(env: CfsEnv, path: seq<nat>): int {
    if path == [] then NO_LIMIT
    else Tighter(PathLimit(env, path[..|path| - 1]), Normalized(env, path[|path| - 1]))
  }

  function TreeIds(t: Tree): set<nat>
    decreases t, 1
  {
    {t.id} + AllIds(t.children)
  }

  function AllIds(trees: seq<Tree>): set<nat>
    decreases trees, 0
  {
    if trees == [] then {} else TreeIds(trees[0]) + AllIds(trees[1..])
  }

  /** Every group occurs once. */
  predicate Distinct(t: Tree)
    decreases t, 1
  {
    t.id !in AllIds(t.children) && AllDistinct(t.children)
  }

  predicate AllDistinct(trees: seq<Tree>)
    decreases trees, 0
  {
    trees == [] ||
    (TreeIds(trees[0]) !! AllIds(trees[1..]) && Distinct(trees[0]) && AllDistinct(trees[1..]))
  }

  /** No limit below a group with path `path` is looser than one above it. */
  predicate Tightening(env: CfsEnv, t: Tree, path: seq<nat>)
    decreases t, 1
  {
    Fits(env, t.id, path) && AllTightening(env, t.children, path + [t.id])
  }

  predicate AllTightening(env: CfsEnv, trees: seq<Tree>, path: seq<nat>)
    decreases trees, 0
  {
    trees == [] || (Tightening(env, trees[0], path) && AllTightening(env, trees[1..], path))
  }

  predicate Fits(env: CfsEnv, id: nat, path: seq<nat>) {
    Normalized(env, id) == NO_LIMIT || PathLimit(env, path) == NO_LIMIT || Normalized(env, id) <= PathLimit(env, path)
  }

  /** Every field in a tree holds the tightest limit on its group's path. */
  predicate Settled(env: CfsEnv, t: Tree, path: seq<nat>, quotas: Quotas)
    decreases t, 1
  {
    t.id in quotas && quotas[t.id] == PathLimit(env, path + [t.id]) && AllSettled(env, t.children, path + [t.id], quotas)
  }

  predicate AllSettled(env: CfsEnv, trees: seq<Tree>, path: seq<nat>, quotas: Quotas)
    decreases trees, 0
  {
    trees == [] || (Settled(env, trees[0], path, quotas) && AllSettled(env, trees[1..], path, quotas))
  }

  /** Writing fields of other groups does not disturb a settled tree. */
  lemma {:induction false} SettledFrame(env: CfsEnv, t: Tree, path: seq<nat>, quotas: Quotas, quotas': Quotas)
    requires Settled(env, t, path, quotas)
    requires forall id :: id in TreeIds(t) && id in quotas ==> id in quotas' && quotas'[id] == quotas[id]
    ensures Settled(env, t, path, quotas')
    decreases t, 1
  {
    AllSettledFrame(env, t.children, path + [t.id], quotas, quotas');
  }

  lemma {:induction false} AllSettledFrame(env: CfsEnv, trees: seq<Tree>, path: seq<nat>, quotas: Quotas, quotas': Quotas)
    requires AllSettled(env, trees, path, quotas)
    requires forall id :: id in AllIds(trees) && id in quotas ==> id in quotas' && quotas'[id] == quotas[id]
    ensures AllSettled(env, trees, path, quotas')
    decreases trees, 0
  {
    if trees != [] {
      SettledFrame(env, trees[0], path, quotas, quotas');
      AllSettledFrame(env, trees[1..], path, quotas, quotas');
    }
  }

  /** The fields outside a set of groups are as before. */
  predicate OnlyWrites(ids: set<nat>, quotas: Quotas, quotas': Quotas) {
    forall id :: id in quotas && id !in ids ==> id in quotas' && quotas'[id] == quotas[id]
  }

  lemma DownStep(env: CfsEnv, id: nat, path: seq<nat>, parent: nat, quotas: Quotas)
    requires ParentOf(env, id) == To(parent) && parent in quotas && quotas[parent] == PathLimit(env, path)
    ensures PathLimit(env, path + [id]) == Tighter(PathLimit(env, path), Normalized(env, id))
    ensures var (ret, quotas') := CfsDown(env, id, quotas);
            && (ret == 0 <==> Fits(env, id, path))
            && quotas' == (if ret == 0 then quotas[id := PathLimit(env, path + [id])] else quotas)
  {
  }

  lemma {:induction false} CfsWalk(env: CfsEnv, t: Tree, path: seq<nat>, parent: nat, quotas: Quotas)
    requires Linked(env.groups, t) && Distinct(t) && ParentOf(env, t.id) == To(parent) && parent !in TreeIds(t)
    requires parent in quotas && quotas[parent] == PathLimit(env, path)
    ensures var (ret, quotas') := Recurse(t, CfsVisitor(env), Nop<Quotas>(), quotas);
            && (ret == 0 <==> Tightening(env, t, path))
            && (ret == 0 ==> Settled(env, t, path, quotas'))
            && OnlyWrites(TreeIds(t), quotas, quotas')
    decreases t, 1
  {
    DownStep(env, t.id, path, parent, quotas);
    var (ret, quotas1) := CfsDown(env, t.id, quotas);
    if ret == 0 {
      CfsWalkAll(env, t.children, path + [t.id], t.id, quotas1);
    }
  }

  lemma {:induction false} CfsWalkAll(env: CfsEnv, trees: seq<Tree>, path: seq<nat>, parent: nat, quotas: Quotas)
    requires SiblingsLinked(env.groups, trees, parent) && AllDistinct(trees) && parent !in AllIds(trees)
    requires parent in quotas && quotas[parent] == PathLimit(env, path)
    ensures var (ret, quotas') := RecurseAll(trees, CfsVisitor(env), Nop<Quotas>(), quotas);
            && (ret == 0 <==> AllTightening(env, trees, path))
            && (ret == 0 ==> AllSettled(env, trees, path, quotas'))
            && OnlyWrites(AllIds(trees), quotas, quotas')
    decreases trees, 0
  {
    if trees != [] {
      CfsWalk(env, trees[0], path, parent, quotas);
      var (ret, quotas1) := Recurse(trees[0], CfsVisitor(env), Nop<Quotas>(), quotas);
      if ret == 0 {
        CfsWalkAll(env, trees[1..], path, parent, quotas1);
        var quotas2 := RecurseAll(trees[1..], CfsVisitor(env), Nop<Quotas>(), quotas1).1;
        SettledFrame(env, trees[0], path, quotas1, quotas2);
      }
    }
  }

  /** `__cfs_schedulable`: the walk accepts exactly the hierarchies in which no normalized limit
      is looser than one above it, and then every field holds the tightest limit on its group's path
      below the root.  The parent's field is up to date because `down` runs on it first. */
  method CfsSchedulable(root: Tree, env: CfsEnv, fields: Quotas) returns (ret: int, quotas: Quotas)
    requires Linked(env.groups, root) && Distinct(root) && ParentOf(env, root.id) == Nil
    ensures ret == 0 <==> AllTightening(env, root.children, [])
    ensures ret == 0 ==> root.id in quotas && quotas[root.id] == NO_LIMIT && AllSettled(env, root.children, [], quotas)
    ensures AllPlain(env, AllIds(root.children)) ==>
      && (AllRealTightening(env, root.children, [], 0.0) ==> ret == 0)
      && (ret == 0 ==> AllRealTightening(env, root.children, [], UNIT))
  {
    ret, quotas := WalkTgTreeFrom(env.groups, root, root.id, CfsVisitor(env), Nop<Quotas>(), fields);
    CfsWalkAll(env, root.children, [], root.id, fields[root.id := NO_LIMIT]);
    if AllPlain(env, AllIds(root.children)) {
      AllTighteningMeans(env, root.children, []);
    }
  }

  /** `path` goes from a child of `root` down to a group. */
  predicate IsPath(root: Tree, path: seq<nat>)
    decreases |path|
  {
    path != [] && exists i :: 0 <= i < |root.children| && root.children[i].id == path[0] && (|path| == 1 || IsPath(root.children[i], path[1..]))
  }

  lemma {:induction false} SettledAt(env: CfsEnv, trees: seq<Tree>, path: seq<nat>, quotas: Quotas, i: nat)
    requires AllSettled(env, trees, path, quotas) && i < |trees|
    ensures Settled(env, trees[i], path, quotas)
    decreases |trees|
  {
    if i > 0 {
      SettledAt(env, trees[1..], path, quotas, i - 1);
    }
  }

  /** In a settled hierarchy the field of any group is the minimum over the path to it. */
  lemma {:induction false} FieldIsPathMinimum(env: CfsEnv, t: Tree, above: seq<nat>, path: seq<nat>, quotas: Quotas)
    requires AllSettled(env, t.children, above, quotas) && IsPath(t, path)
    ensures path[|path| - 1] in quotas && quotas[path[|path| - 1]] == PathLimit(env, above + path)
    decreases |path|
  {
    var i :| 0 <= i < |t.children| && t.children[i].id == path[0] && (|path| == 1 || IsPath(t.children[i], path[1..]));
    SettledAt(env, t.children, above, quotas, i);
    if |path| == 1 {
      assert path == [path[0]];
    } else {
      FieldIsPathMinimum(env, t.children[i], above + [path[0]], path[1..], quotas);
      assert above + [path[0]] + path[1..] == above + path;
    }
  }

  /** What `PathLimit` means: no group on the path is tighter, and if there is a limit some
      group on the path sets it. */
  lemma {:induction false} PathLimitIsMinimum(env: CfsEnv, path: seq<nat>)
    ensures forall k :: 0 <= k < |path| && Normalized(env, path[k]) != NO_LIMIT ==>
              PathLimit(env, path) != NO_LIMIT && PathLimit(env, path) <= Normalized(env, path[k])
    ensures PathLimit(env, path) != NO_LIMIT ==>
              exists k :: 0 <= k < |path| && Normalized(env, path[k]) == PathLimit(env, path)
  {
    if path != [] {
      var front, last := path[..|path| - 1], |path| - 1;
      PathLimitIsMinimum(env, front);
      forall k | 0 <= k < |path| && Normalized(env, path[k]) != NO_LIMIT
        ensures PathLimit(env, path) != NO_LIMIT && PathLimit(env, path) <= Normalized(env, path[k])
      {
        if k < last {
          assert front[k] == path[k];
        }
      }
      if PathLimit(env, path) != NO_LIMIT && PathLimit(env, path) != Normalized(env, path[last]) {
        var k :| 0 <= k < |front| && Normalized(env, front[k]) == PathLimit(env, front);
        assert path[k] == front[k];
      }
    }
  }
}
