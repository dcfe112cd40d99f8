# Scheduler models

Dafny models of the scheduler in `Prj2/kernel/sched` (Linux 3.4 with a weighted round robin
class added) and of two programs of `Prj1`: the burger shop and the process-tree system call.
Each component is modelled twice over: as functions on values, about which the properties are
proved, and, where the source changes things in place, as a class or a method over an array
that does what the C code does, statement by statement, and is proved to compute those
functions. The rows of the table below that name a method of a class, or begin with
"refinement step", are such ties between one C function and its specification; the results
are the lemmas.

| file | component |
|---|---|
| `RtBandwidth.dfy` | real-time runtime lent between CPUs, reclaimed, disabled, enabled, charged, refilled |
| `RtLedger.dfy` | throttling of one queue over whole runs |
| `TaskLists.dfy` | the scheduler's lists of tasks |
| `RtModel.dfy` | the real-time queues without their caches: steps, invariant, runs, balancing |
| `RtFifo.dfy` | the order of the tasks at one real-time level over whole runs |
| `RtRunqueue.dfy` | the same queues with bitmap, counters, best priorities, overload mask and cpupri entry |
| `RtBalance.dfy` | pushing and pulling real-time tasks |
| `FixedPoint.dfy` | fixed-point power, the load average and its n-step shortcut |
| `LoadDecay.dfy` | table-driven decay of the per-CPU load |
| `LoadFold.dfy` | the distributed count behind the load average, with its missed periods |
| `TgWalk.dfy` | the stackless walk of the task-group tree |
| `TgSchedulable.dfy` | the real-time and CFS admission checks that ride on it |
| `Wrr.dfy` | the weighted round robin class |
| `ClassSwitch.dfy` | class membership under policy changes, inheritance, renice and fork; the pick |
| `ClassEffects.dfy` | what those operations achieve: grants, boosts, nice values, the pick after them |
| `BurgerBuddies.dfy` | the semaphore protocol of cooks, cashiers and customers |
| `Ptree.dfy` | the process-tree dump and reading it back |

Configuration: `CONFIG_SMP` and `CONFIG_NO_HZ` on, `CONFIG_RT_GROUP_SCHED` off for the run
queues; `unsigned long` is 32 bits, as on the ARM target. A section that holds a run-queue
lock or `rt_runtime_lock` throughout is one step. The load fold is split at every atomic
operation on the shared counters, and the burger shop at every semaphore operation.

## Results that qualify what the source suggests

- `__enable_runtime` keeps the sum of runtimes exactly when the queue was disabled or held its
  own allotment (`RtBandwidth.EnableConserves`); otherwise `BUG_ON(want)` can be reached
  (`RtBandwidth.EnableOfBorrowerReachesBug`).
- The CFS admission check compares ratios truncated to 32 bits. A quota of 4096 periods or
  more, which the code lets in, counts for less than it is: 4.096 seconds in every millisecond
  normalize to 0 and pass under any limit (`TgSchedulable.HugeQuotaPasses`). Truncation
  changes nothing exactly below that (`TgSchedulable.TruncatesUnless`), and then the check
  decides about the real ratios up to a 2^-20th (`TgSchedulable.AllTighteningMeans`). The
  real-time check adds truncated ratios too, but there no reachable hierarchy is affected
  (`TgSchedulable.ReachableIsFeasible`), and one that fits in real ratios is never refused
  (`TgSchedulable.RealFitsIsAccepted`).
- A weighted-round-robin task that changes its group or enters the class while it runs, or gets
  a nice value that leaves its priority as it was, goes to the tail and keeps running: the
  running task is then not the head, with no reschedule pending
  (`Wrr.HeadRunsUnlessDisplaced` says exactly when). Waiting is bounded all
  the same, with one more slice for such a runner (`Wrr.BoundedWaiting`), but a task that is
  itself moved starts again at the tail.
- The process-tree system call overruns its buffer exactly when there are more than 1024 tasks
  (`Ptree.Ptree`).
- The steady load of more than 1023 tasks does not fit the 32-bit average
  (`FixedPoint.SteadyLoadHoldsIff`).
- The running average settles beside the active count, not always on it
  (`FixedPoint.SettledIsClose`).
- A task of policy 6 that fork or a lost boost has put into the fair class cannot get back by
  asking for policy 6 again (`ClassSwitch.WrrRequestWorksIff`).
- A request to reset the policy on fork that changes neither policy nor real-time priority is
  granted and lost (`ClassEffects.ResetTakesIff`).
- A task that inherits a priority and loses it again is what it was exactly unless it was of the
  weighted round robin class (`ClassEffects.BoostUndoneIff`).
- A weighted round robin slice is 10 ticks in 1000 for a background group, so the class needs
  at least 100 ticks a second; below that the refilled slice is 0 and its decrement wraps.
- `pull_rt_task` skips a queue whose best eligible task is more urgent than what that CPU runs,
  even if a second eligible task could be taken (`RtBalance.PullRtTask` says exactly what is
  left).

## Model

| member | source | states |
|---|---|---|
| RtBandwidth.LendConserves | Prj2/kernel/sched/rt.c:560-610 | the rounds of lending leave the sum over enabled queues at their number times the allotment |
| RtBandwidth.BorrowerBounded | Prj2/kernel/sched/rt.c:592-604 | a borrower at or below the period gains runtime and never passes the period |
| RtBandwidth.LenderKeepsUsedTime | Prj2/kernel/sched/rt.c:588-598 | a lender never drops below the time it has used |
| RtBandwidth.BorrowerGets | Prj2/kernel/sched/rt.c:592-604 | a borrower at or below the period ends at the smaller of the period and its start plus an n-th of the unused runtime of every enabled neighbour |
| RtBandwidth.LenderGives | Prj2/kernel/sched/rt.c:588-604 | each neighbour gives its share as long as those before it leave something missing to the period, the last one what is missing, and the rest nothing |
| RtBandwidth.LendersGiveTheirShares | Prj2/kernel/sched/rt.c:588-598 | if all shares fit below the period, each lender gives exactly an n-th of its unused runtime |
| RtBandwidth.LendReports | Prj2/kernel/sched/rt.c:592-601 | `more` is reported exactly when some enabled neighbour has unused runtime |
| RtBandwidth.OverfullGivesBack | Prj2/kernel/sched/rt.c:594-604 | a borrower above the period gives what it has too much to the first such neighbour and touches nobody else |
| RtBandwidth.TransferConserves | Prj2/kernel/sched/rt.c:597-598 | moving any amount between two enabled queues keeps the sum |
| RtBandwidth.ReclaimSurplus | Prj2/kernel/sched/rt.c:646-674 | the greedy rounds shift the surplus by exactly what they took, and leave the queue going down alone |
| RtBandwidth.ReclaimLeftover | Prj2/kernel/sched/rt.c:646-674 | something is left wanting only after every other enabled queue was drained |
| RtBandwidth.ReclaimTakes | Prj2/kernel/sched/rt.c:646-674 | a lender takes from each enabled neighbour in order all that it holds or what is still wanted |
| RtBandwidth.ReclaimReturns | Prj2/kernel/sched/rt.c:660-667 | a borrower returns everything to the first enabled neighbour |
| RtBandwidth.DisableConserves | Prj2/kernel/sched/rt.c:615-691 | taking a queue down in a conserved domain leaves nothing wanting, so `BUG_ON(want)` cannot fire whichever sign it starts with, and conserves |
| RtBandwidth.EnableConserves | Prj2/kernel/sched/rt.c:702-724 | enabling conserves if and only if the queue was disabled or held just its allotment; the queue starts afresh, not throttled |
| RtBandwidth.EnableOfBorrowerReachesBug | Prj2/kernel/sched/rt.c:702-724 | a concrete domain where enabling a borrower makes a later disable reach the BUG_ON |
| RtBandwidth.ChargeConserves | Prj2/kernel/sched/rt.c:897-936 | charging the running task, with the borrowing and throttling it sets off, conserves |
| RtBandwidth.ChargeThrottlesIff | Prj2/kernel/sched/rt.c:844-936 | an overrunning queue first gets the shares of its neighbours, if sharing is on, and is throttled if and only if it has used more than it then has |
| RtBandwidth.ChargeOnly | Prj2/kernel/sched/rt.c:848-855 | with control off nothing is charged; a queue that is throttled already or holds the whole period is charged and that is all |
| RtBandwidth.UnassignedIsForgiven | Prj2/kernel/sched/rt.c:864-882 | a queue without an allotment is not throttled, and what it used too much is forgotten |
| RtBandwidth.TimerConserves | Prj2/kernel/sched/rt.c:779-830 | one CPU of the period timer conserves |
| RtBandwidth.TimerThrottlesIff | Prj2/kernel/sched/rt.c:790-800 | the timer borrows for a throttled queue first; it stays throttled if and only if what it used, less the overruns times what it then has, is at least that again |
| RtBandwidth.TimerReaches | Prj2/kernel/sched/rt.c:779-830 | without sharing every CPU of the mask gets back the overruns times its own allotment, and no other CPU is touched |
| RtBandwidth.NextConserves | Prj2/kernel/sched/rt.c:560-936 | every step conserves |
| RtBandwidth.RunConserves | Prj2/kernel/sched/rt.c:560-724 | in every state of every run the enabled queues hold their number times the allotment, and disabling any of them would leave nothing wanting |
| RtBandwidth.RootDomain.DoBalanceRuntime | Prj2/kernel/sched/rt.c:560-610 | below the period the queue gets the shares of all neighbours together or what is missing to the period; it reports more exactly when some neighbour could lend; in place it computes `LendFrom` |
| RtBandwidth.RootDomain.BalanceRuntime | Prj2/kernel/sched/rt.c:757-771 | with sharing on and the allotment overrun the queue gets the shares of its neighbours up to the period; otherwise nothing is borrowed |
| RtBandwidth.RootDomain.DisableRuntime | Prj2/kernel/sched/rt.c:615-691 | computes `Disable` and keeps the sum; its BUG_ON is an assertion |
| RtBandwidth.RootDomain.EnableRuntime | Prj2/kernel/sched/rt.c:702-724 | refinement step: computes `Enable` |
| RtBandwidth.RootDomain.SchedRtRuntimeExceeded | Prj2/kernel/sched/rt.c:844-891 | computes `RuntimeExceeded` and returns the throttled flag |
| RtBandwidth.RootDomain.UpdateCurrRt | Prj2/kernel/sched/rt.c:897-936 | computes `Charge` |
| RtBandwidth.RootDomain.DoSchedRtPeriodTimer | Prj2/kernel/sched/rt.c:779-830 | refills every CPU of the mask; the timer may stop exactly when nothing is used or running, or control is off and nothing is throttled |
| RtLedger.LedgerBalances | Prj2/kernel/sched/rt.c:779-936 | with sharing off, charged time is what is on the queue plus what was refunded, and throttled means an allotment is used up |
| RtLedger.ChargedWithinHeadroom | Prj2/kernel/sched/rt.c:779-936 | charges stay within one allotment per period plus the headroom at the start |
| RtLedger.ThrottlingCaps | Prj2/kernel/sched/rt.c:779-936 | a run of K periods with no charges while throttled charges at most K + 1 allotments and one largest delta |
| RtLedger.RecoversExactlyAt | Prj2/kernel/sched/rt.c:779-830 | a throttled queue without new charges is unthrottled by firing number floor(rt_time / runtime), and by none before |
| TaskLists.RemoveKeeps | Prj2/kernel/sched/rt.c:1099-1106 | deletion takes out exactly the task, keeps the list free of repetitions, and changes nothing for a task that is not on it |
| TaskLists.AheadAfterRemove | Prj2/kernel/sched/rt.c:1099-1106 | taking a task off changes nothing in the order of the others |
| TaskLists.AheadAfterAdd | Prj2/kernel/sched/rt.c:1082-1093 | a task added at the tail is behind everybody, at the head before everybody, and the others keep their order |
| RtModel.InsertKeeps | Prj2/kernel/sched/rt.c:308-317 | adding to the pushable list keeps it sorted by priority and adds exactly that task |
| RtModel.EnqueueKeeps | Prj2/kernel/sched/rt.c:1154-1168 | `enqueue_task_rt` adds exactly that task and keeps lists and pushable list well formed; at which end, `RtFifo.JoinsItsEnd` says |
| RtModel.DequeueKeeps | Prj2/kernel/sched/rt.c:1170-1180 | `dequeue_task_rt` removes exactly that task and keeps them well formed |
| RtModel.RequeueKeeps | Prj2/kernel/sched/rt.c:1186-1209 | requeueing keeps the set of queued tasks and the invariant |
| RtModel.SwitchKeeps | Prj2/kernel/sched/rt.c:1371-1400 | put-prev, pick and switch keep the invariant and the priority lists |
| RtModel.AffinityKeeps | Prj2/kernel/sched/rt.c:1803-1844 | after `set_cpus_allowed_rt` and the store of the new mask the pushable list is right for the new mask |
| RtModel.PushedIsHere | Prj2/kernel/sched/rt.c:1577-1595 | the head of a pushable list passes all five BUG_ONs and is the most urgent pushable task |
| RtModel.BestIsMostUrgent | Prj2/kernel/sched/rt.c:1328-1343 | the front of the most urgent occupied level is queued here and no queued task is more urgent |
| RtModel.PickIsBest | Prj2/kernel/sched/rt.c:1345-1388 | an unthrottled pick returns the front of the most urgent occupied level, which by `RtFifo` is the task that has waited longest there |
| RtModel.MoveKeeps | Prj2/kernel/sched/rt.c:1674-1676 | deactivate, set CPU, activate: the same tasks are queued as before and every queue stays well formed |
| RtModel.NextKeeps | Prj2/kernel/sched/rt.c:308-330 | every step keeps every queue well formed |
| RtModel.RunOk | Prj2/kernel/sched/rt.c:308-330 | in every reachable state each pushable list is exactly the queued, not running tasks with more than one allowed CPU, sorted by priority |
| RtModel.BootOk | Prj2/kernel/sched/rt.c:60-90 | the initial state is well formed |
| RtModel.MoveLowers | Prj2/kernel/sched/rt.c:1602-1755 | a push or pull makes the moved task the best of its destination; a source that runs a queued task at least as urgent keeps its best, and the sum falls; otherwise it rises by less than a hundred |
| RtModel.BalancingSettles | Prj2/kernel/sched/rt.c:1602-1773 | over any run of all steps, moves from under a queued running task at least as urgent number at most the summed best priorities at the start and a hundred for each dequeue or other move: pushing and pulling under such tasks alone cannot go on for ever |
| RtModel.PingPong | Prj2/kernel/sched/rt.c:1602-1755 | a bound on these steps needs the extra hundred: in the step relation, which has no overload test and no triggers, a push and the pull back restore the state |
| RtModel.SumBestBound | Prj2/kernel/sched/rt.c:1602-1773 | the summed best priorities are at most a hundred per CPU |
| RtModel.BalancingConserves | Prj2/kernel/sched/rt.c:1602-1773 | any sequence of pushes and pulls keeps the queued tasks as a whole and all of a task but its CPU, which its mask allows if it moved |
| RtFifo.JoinsItsEnd | Prj2/kernel/sched/rt.c:1071-1097 | an enqueue, or a requeue of a queued task, makes it the last of its level, or the first if so asked; the others keep their order, and other levels are untouched |
| RtFifo.InsertsBehindEquals | Prj2/kernel/sched/rt.c:308-317 | on the pushable list a task goes behind everybody at least as urgent and before everybody less so |
| RtFifo.LineNeverGrows | Prj2/kernel/sched/rt.c:1071-1209 | over any run, while a task stays queued where it is and nobody joins its level at the head, nobody new comes before it |
| RtFifo.FirstComeFirstServed | Prj2/kernel/sched/rt.c:1328-1388 | over any such run nobody that did not stand before it at the start, new arrivals included, is picked at its level while it is queued there |
| RtFifo.OutsidersAreNotAhead | Prj2/kernel/sched/rt.c:1071-1097 | a task that is not queued, or at another level, stands before nobody there |
| RtFifo.FallbackIff | Prj2/kernel/sched/rt.c:1345-1361 | the other classes get the CPU exactly when a stop task is there, the queue is throttled, or nothing is queued |
| RtRunqueue.CachesAreDetermined | Prj2/kernel/sched/rt.c:225-330 | the bitmap, all counters, both best priorities and the overload flag are functions of the lists and the task table |
| RtRunqueue.RunningIsLength | Prj2/kernel/sched/rt.c:1046-1069 | `rt_nr_running` is the number of entries on all priority lists |
| RtRunqueue.OverloadedIff | Prj2/kernel/sched/rt.c:262-273 | a CPU is overloaded exactly when a task that may run on several CPUs is queued beside another one |
| RtRunqueue.LinkCached | Prj2/kernel/sched/rt.c:1071-1097 | the field updates of an enqueue are right for the new lists |
| RtRunqueue.UnlinkCached | Prj2/kernel/sched/rt.c:1099-1111 | the field updates of a dequeue are right for the new lists, the best priority recomputed only when its own level lost a task |
| RtRunqueue.FirstBitIsBest | Prj2/kernel/sched/rt.c:1328-1343 | the first set bit, with the delimiter bit at the end, is the most urgent occupied level or 100 |
| RtRunqueue.AffinityCached | Prj2/kernel/sched/rt.c:1803-1844 | a new mask moves the migratory count by at most one and leaves the other counts right |
| RtRunqueue.RunningIffOccupied | Prj2/kernel/sched/rt.c:1345-1361 | `rt_nr_running` is zero exactly when no level is occupied, so the BUG_ON of the pick cannot fire |
| RtRunqueue.FindNextBit | Prj2/kernel/sched/rt.c:1328-1337 | returns the first set bit at or after the start |
| RtRunqueue.RtScheduler.constructor | Prj2/kernel/sched/rt.c:60-90 | the booted state is coherent |
| RtRunqueue.RtScheduler.RtSetOverload | Prj2/kernel/sched/rt.c:235-250 | an online CPU enters the mask and is counted; an offline one changes nothing |
| RtRunqueue.RtScheduler.RtClearOverload | Prj2/kernel/sched/rt.c:252-260 | an online CPU leaves the mask and is no longer counted |
| RtRunqueue.RtScheduler.UpdateRtMigration | Prj2/kernel/sched/rt.c:262-273 | afterwards overloaded holds if and only if a migratory task and a second task are queued, and the mask is exactly the online overloaded CPUs |
| RtRunqueue.RtScheduler.IncRtMigration | Prj2/kernel/sched/rt.c:275-287 | refinement step: counts a queued task and keeps the mask exact |
| RtRunqueue.RtScheduler.DecRtMigration | Prj2/kernel/sched/rt.c:289-301 | refinement step: discounts a task and keeps the mask exact |
| RtRunqueue.RtScheduler.IncRtPrio | Prj2/kernel/sched/rt.c:968-977 | refinement step: the best priority becomes the minimum and an online CPU publishes it |
| RtRunqueue.RtScheduler.DecRtPrio | Prj2/kernel/sched/rt.c:979-1003 | the best priority is recomputed exactly when the leaving task had it; the WARN_ON cannot fire |
| RtRunqueue.RtScheduler.EnqueueEntity | Prj2/kernel/sched/rt.c:1071-1097 | links the task at the asked end of its level and leaves every cached field right |
| RtRunqueue.RtScheduler.DequeueEntity | Prj2/kernel/sched/rt.c:1099-1111 | unlinks the task and leaves every cached field right |
| RtRunqueue.RtScheduler.EnqueuePushableTask | Prj2/kernel/sched/rt.c:308-317 | `highest_prio.next` stays the priority of the first pushable task |
| RtRunqueue.RtScheduler.DequeuePushableTask | Prj2/kernel/sched/rt.c:319-330 | `highest_prio.next` stays the priority of the first pushable task, or 100 |
| RtRunqueue.RtScheduler.EnqueueTaskRt | Prj2/kernel/sched/rt.c:1154-1168 | the task becomes the last of its level, or the first if so asked, the others keep their order, and the queue stays coherent |
| RtRunqueue.RtScheduler.DequeueTaskRt | Prj2/kernel/sched/rt.c:1170-1180 | computes `DequeueRq` and keeps the queue coherent |
| RtRunqueue.RtScheduler.RequeueTaskRt | Prj2/kernel/sched/rt.c:1186-1209 | a queued task becomes the last or first of its level, the others keep their order, any other changes nothing; the queue stays coherent |
| RtRunqueue.RtScheduler.PickNextTaskRt | Prj2/kernel/sched/rt.c:1345-1388 | returns the front of the best level, or nothing when throttled or empty, and takes it off the pushable list |
| RtRunqueue.RtScheduler.PutPrevTaskRt | Prj2/kernel/sched/rt.c:1390-1400 | makes the previous task pushable if it is still queued and migratory |
| RtRunqueue.RtScheduler.Schedule | Prj2/kernel/sched/core.c:3325-3385 | put-prev, pick and the switch of the current task compute `Switch` and keep the queue coherent |
| RtRunqueue.RtScheduler.SetCpusAllowedRt | Prj2/kernel/sched/rt.c:1803-1844 | leaves all caches right for the mask that is stored next; the BUG_ON on the migratory count cannot fire |
| RtRunqueue.RtScheduler.ActivateTask | Prj2/kernel/sched/core.c:729-735 | the enqueue step: the task is last of its level, or first if so asked, in unchanged order of the others, and the whole system stays coherent |
| RtRunqueue.RtScheduler.DeactivateTask | Prj2/kernel/sched/core.c:737-743 | the dequeue step keeps the whole system coherent |
| RtRunqueue.RtScheduler.RequeueTask | Prj2/kernel/sched/rt.c:1200-1214 | the requeue and yield steps keep the whole system coherent |
| RtRunqueue.RtScheduler.ScheduleCpu | Prj2/kernel/sched/core.c:3325-3385 | the schedule step keeps the whole system coherent |
| RtRunqueue.RtScheduler.SetPrio | Prj2/kernel/sched/core.c:3979-3990 | changing the priority of a task that is off the queues keeps the whole system coherent |
| RtRunqueue.RtScheduler.StoreThrottled | Prj2/kernel/sched/rt.c:844-891 | setting or clearing the throttled flag keeps the whole system coherent |
| RtRunqueue.RtScheduler.SetTaskCpu | Prj2/kernel/sched/core.c:1085-1124 | changing the CPU of a task that is off the queues keeps the whole system coherent |
| RtRunqueue.RtScheduler.SetCpusAllowed | Prj2/kernel/sched/core.c:5107-5114 | hook and store together are the affinity step and keep the whole system coherent |
| RtRunqueue.RtScheduler.RqOnline | Prj2/kernel/sched/rt.c:1847-1855 | an overloaded CPU that comes online joins the mask and publishes its best priority |
| RtRunqueue.RtScheduler.RqOffline | Prj2/kernel/sched/rt.c:1858-1866 | a CPU that goes offline leaves the mask and publishes none |
| RtBalance.FindLockLowestRq | Prj2/kernel/sched/rt.c:1531-1575 | the loop of at most three tries, with the rechecks after a dropped lock, computes `Search`: it finds the CPU of the first try that suits, or its tries are used up or reach nothing |
| RtBalance.SearchIsSuitable | Prj2/kernel/sched/rt.c:1531-1575 | whatever happened while the lock was dropped, a CPU that is found is allowed and another one, and the task is still queued here, not running, and outranks everything queued there |
| RtBalance.SearchMeans | Prj2/kernel/sched/rt.c:1531-1575 | whatever happens while the lock is dropped, it finds the CPU of the first try that passes the rechecks and where the task outranks everything queued, if only tries that reach another CPU in vain come before; it finds none exactly when three tries are in vain or one before reaches nothing |
| RtBalance.ThirdTryIsLast | Prj2/kernel/sched/rt.c:1537-1572 | the third try counts and is the last |
| RtBalance.SearchQuiet | Prj2/kernel/sched/rt.c:1531-1575 | undisturbed the search changes nothing; a search that finds a CPU or changes anything has taken a lock |
| RtBalance.TraceIsRun | Prj2/kernel/sched/rt.c:1602-1773 | what pushing and pulling do, interference included, is a run of the step relation, so the results about runs hold of it |
| RtBalance.DoubleLock | Prj2/kernel/sched/rt.c:1543-1558 | refinement step: the lock is kept and nothing changes, or the others make a burst of steps |
| RtBalance.PickNextPushableTask | Prj2/kernel/sched/rt.c:1577-1595 | returns the first pushable task; its five BUG_ONs are assertions |
| RtBalance.TryPush | Prj2/kernel/sched/rt.c:1619-1672 | from the test of the chosen task on, with the retry on a new head after a failed search: it ends, and computes `Attempt` |
| RtBalance.AttemptTrace | Prj2/kernel/sched/rt.c:1619-1687 | an attempt is steps of the others and, if it moves a task, one push of its own that was possible when it was made |
| RtBalance.AttemptMeans | Prj2/kernel/sched/rt.c:1619-1687 | whatever happens, a task that is moved is the head of the pushable list at some time, no more urgent than the current task then, and goes where a search found; nothing is moved only if the list is empty, its head preempts, or a search for the present head has just found nothing |
| RtBalance.PushRtTask | Prj2/kernel/sched/rt.c:1602-1687 | undisturbed it moves a task exactly when the CPU is overloaded and the head of the pushable list is no more urgent than the current task and has somewhere to go; in any case it computes `PushOnce` |
| RtBalance.PushOnceIff | Prj2/kernel/sched/rt.c:1602-1687 | undisturbed, exactly when a task is pushed, that it is the head, and that it goes to the first of three answers that suits |
| RtBalance.PushOnceTrace | Prj2/kernel/sched/rt.c:1602-1687 | it makes at most one push, besides steps of the others |
| RtBalance.PushOnceQuiet | Prj2/kernel/sched/rt.c:1602-1687 | undisturbed, either nothing changes or the head, no more urgent than the current task, leaves the pushable list |
| RtBalance.PushRtTasks | Prj2/kernel/sched/rt.c:1689-1694 | ends under any finite interference, with nothing to push or a head that preempts or was just searched for in vain; undisturbed it pushes something exactly if the start allows it, each push takes the head off the pushable list, and at the end the list is empty, the CPU not overloaded, the head more urgent than the current task, or its three answers unsuitable up to one that names no other CPU |
| RtBalance.PickNextHighestTaskRt | Prj2/kernel/sched/rt.c:1417-1452 | returns the most urgent eligible task, the first of its level, and nothing exactly when none is eligible |
| RtBalance.SkipMissesNothing | Prj2/kernel/sched/rt.c:1711-1720 | a queue skipped by its cached next priority held nothing to pull |
| RtBalance.ChoosePull | Prj2/kernel/sched/rt.c:1711-1755 | with both locks held, the task to take from one queue outranks everything here and not what its CPU runs; otherwise nothing is left to pull there |
| RtBalance.PullFrom | Prj2/kernel/sched/rt.c:1705-1757 | one round: the skip without the lock, the decision in the state after the lock, and one pull or none; undisturbed, a queue passed over held nothing to pull |
| RtBalance.PullTrace | Prj2/kernel/sched/rt.c:1705-1757 | a round is steps of the others and one pull or none |
| RtBalance.PulledSettles | Prj2/kernel/sched/rt.c:1711-1755 | after a pull the destination has the pulled priority and the source nothing better |
| RtBalance.PullRtTask | Prj2/kernel/sched/rt.c:1696-1773 | a run of its pulls and steps of the others, and the result tells whether it pulled; undisturbed, each pull strictly improves the best priority here, and afterwards no CPU overloaded at the start has an eligible task that beats it, unless its best would preempt its own CPU |
| RtBalance.MoveTask | Prj2/kernel/sched/rt.c:1674-1676 | computes `Move`, keeps the system coherent, and changes no field of any other CPU |
| FixedPoint.FixedPowerInt | Prj2/kernel/sched/core.c:2406-2426 | the loop on 32-bit registers computes `FixedPower` |
| FixedPoint.PowerFromNear | Prj2/kernel/sched/core.c:2406-2426 | a partial result at power a is off by at most a/2 and a base at power m by at most (m-1)/2: the errors of the set bits add up |
| FixedPoint.FixedPowerNear | Prj2/kernel/sched/core.c:2406-2426 | for every x up to full scale and every n the result is within n/2 of x^n / F^(n-1) and never exceeds F |
| FixedPoint.FixedPowerMonotone | Prj2/kernel/sched/core.c:2406-2426 | the computed power keeps the order of the bases |
| FixedPoint.MulRoundNear | Prj2/kernel/sched/core.c:2413-2422 | one rounded product below full scale neither wraps nor exceeds full scale, and is within half a unit |
| FixedPoint.CalcLoadFits | Prj2/kernel/sched/core.c:2264-2271 | up to 1023 tasks no register wraps, and the result is the weighted mean rounded to nearest |
| FixedPoint.AverageBetween | Prj2/kernel/sched/core.c:2264-2271 | the average stays between load and active count |
| FixedPoint.AverageMonotone | Prj2/kernel/sched/core.c:2264-2271 | it is monotone in both |
| FixedPoint.SmallerWeightFollows | Prj2/kernel/sched/core.c:2264-2271 | the smaller the weight of the old load, the closer the average comes to the active count |
| FixedPoint.AverageMoves | Prj2/kernel/sched/core.c:2264-2271 | it strictly falls if and only if (load - active)(FIXED_1 - exp) > FIXED_1/2, and strictly rises if and only if the mirror product is at least that |
| FixedPoint.IterateNear | Prj2/kernel/sched/core.c:2428-2450 | n rounded steps stay within n/2 of the exact n-step average |
| FixedPoint.ShortcutNear | Prj2/kernel/sched/core.c:2428-2457 | the shortcut differs from n single steps by at most (n+1)/2 + n |load - active| / (2 FIXED_1), for all inputs |
| FixedPoint.CalcLoadNNear | Prj2/kernel/sched/core.c:2428-2457 | the same for the 32-bit code with at most 1023 tasks |
| FixedPoint.RunNeverWraps | Prj2/kernel/sched/core.c:2524-2529 | a run of averages with at most 1023 active tasks never wraps, whatever its length |
| FixedPoint.SteadyLoadHoldsIff | Prj2/kernel/sched/core.c:2264-2271 | the average of a steady load is that load if and only if there are at most 1023 tasks |
| FixedPoint.SettledIsClose | Prj2/kernel/sched/core.c:2264-2271 | the fixed points are exactly the loads within rounding distance of the active count |
| FixedPoint.Settles | Prj2/kernel/sched/core.c:2264-2271 | iterating reaches a fixed point within as many steps as the distance, and stays |
| LoadDecay.DecayLoadMissed | Prj2/kernel/sched/core.c:2604-2626 | the loop computes `Decay`, and every table access is in range |
| LoadDecay.SevenBits | Prj2/kernel/sched/core.c:2588-2610 | a missed count below the zero limit has at most seven bits |
| LoadDecay.TableUnderestimates | Prj2/kernel/sched/core.c:2588-2596 | every table entry the loop uses is at most the true factor |
| LoadDecay.TableRoundsDown | Prj2/kernel/sched/core.c:2588-2596 | every table entry is the true factor in 128ths, rounded down |
| LoadDecay.ZeroLimitIsFirstZero | Prj2/kernel/sched/core.c:2588-2589 | a load counts as zero from the first power of two ticks on whose factor is below a 128th |
| LoadDecay.DegradeExactIff | Prj2/kernel/sched/core.c:2620-2621 | a product is divided exactly, rounded down, if and only if it fits 32 bits |
| LoadDecay.DecayFromUnder | Prj2/kernel/sched/core.c:2613-2624 | the decay over the remaining bits never exceeds the true power |
| LoadDecay.DecayNeverOverestimates | Prj2/kernel/sched/core.c:2604-2626 | 2^(idx m) decay(load, m, idx) <= (2^idx - 1)^m load, for every load, count and index |
| LoadDecay.DecayNear | Prj2/kernel/sched/core.c:2604-2626 | for loads below 2^25, for every count and index, it is below the true value by at most load/128 + 1 for each one bit of the count |
| LoadFold.CpuStepKeeps | Prj2/kernel/sched/core.c:2246-2259 | every step of a CPU keeps sum, side counters and deltas on their way equal to the summed per-CPU counts |
| LoadFold.GlobalStepKeeps | Prj2/kernel/sched/core.c:2468-2555 | every step of the averaging CPU keeps them equal, and the update is not late when it rests |
| LoadFold.RunInv | Prj2/kernel/sched/core.c:2344-2389 | under every interleaving the counts balance and, outside `calc_global_load`, the window of the update has not passed |
| LoadFold.BootInv | Prj2/kernel/sched/core.c:7146-7236 | the initial counters balance |
| LoadFold.QuiescentIsExact | Prj2/kernel/sched/core.c:2246-2259 | once every CPU has folded and added, the three counters are the number of running and uninterruptible tasks |
| LoadFold.TickCounts | Prj2/kernel/sched/core.c:2543-2555 | a tick that is due brings the whole change of the CPU into the sum, and the next is due a period later; otherwise nothing happens |
| LoadFold.IdleCounts | Prj2/kernel/sched/core.c:2344-2358 | going idle brings it into the present side counter, or into the other one once the window is open |
| LoadFold.TicksMakeExact | Prj2/kernel/sched/core.c:2246-2259 | when all CPUs take a tick that is due, the three counters are the number of running and uninterruptible tasks, whatever was missing before |
| LoadFold.PeriodsApplied | Prj2/kernel/sched/core.c:2510-2537 | over any run segment from the drain to the catching up, with any steps of other CPUs anywhere between, every period since the last update is applied exactly once, with the sums found at the two averaging steps, and then update + 10 - LOAD_FREQ <= jiffies < update + 10 |
| LoadFold.AverageThenCatchUp | Prj2/kernel/sched/core.c:2468-2534 | the first period and the missed ones make up those that began since the update, whatever became of the sum between |
| LoadFold.SegmentUnderway | Prj2/kernel/sched/core.c:2510-2537 | up to any point of such a segment averages and update time are as at the drain, or as one averaging step of the segment left them |
| LoadFold.CaughtUpFits | Prj2/kernel/sched/core.c:2472-2486 | the bulk count of periods puts the instant into the new window |
| LoadFold.WindowIsUnique | Prj2/kernel/sched/core.c:2472-2486 | no other number of periods would |
| LoadFold.OthersKeepGlobal | Prj2/kernel/sched/core.c:2246-2389 | steps of other CPUs change nothing the averaging CPU works on but the counters |
| LoadFold.BulkIsNear | Prj2/kernel/sched/core.c:2482-2484 | catching up in bulk is within the shortcut error of single steps for all three averages |
| LoadFold.FirstFollowsFastest | Prj2/kernel/sched/core.c:2482-2530 | under a steady load of at most 1023 tasks, over any run, no average passes the load, and the second and third lag behind the first in this order, from below and from above, through single and missed periods |
| LoadFold.EqualAveragesPart | Prj2/kernel/sched/core.c:2482-2530 | three equal averages come apart in this order, and stay if they are the load of the tasks there are |
| LoadFold.OneTaskOnePeriod | Prj2/kernel/sched/core.c:2524-2530 | from zero one task makes them 164, 34 and 11 in one period |
| LoadFold.OneFiveFifteen | Prj2/kernel/sched/core.c:2466-2537 | from zero with one task the first is within 1% of full scale of 1 - 1/e after a minute, the second after five, the third after fifteen |
| LoadFold.WakingSkipsTheWindow | Prj2/kernel/sched/core.c:2360-2378 | a CPU that wakes does not sample again in the current window |
| LoadFold.WindowSeparates | Prj2/kernel/sched/core.c:2319-2358 | an idle delta aimed while the window is open, by an index not flipped since it was read, is not drained by the fold of that window, under any interleaving |
| LoadFold.NextWindowTakesIt | Prj2/kernel/sched/core.c:2319-2389 | under any interleaving with one flip between, the next fold drains exactly the counter it was aimed at |
| LoadFold.LoadCounter.CalcLoadFoldActive | Prj2/kernel/sched/core.c:2246-2259 | stores the new count and returns the change |
| LoadFold.LoadCounter.CalcLoadAccountActive | Prj2/kernel/sched/core.c:2543-2555 | makes the fold and add steps of the tick and keeps the balance |
| LoadFold.LoadCounter.CalcLoadEnterIdle | Prj2/kernel/sched/core.c:2344-2358 | makes the fold, read, aim and add steps of idle entry and keeps the balance |
| LoadFold.LoadCounter.CalcLoadExitIdle | Prj2/kernel/sched/core.c:2360-2378 | moves the sample time and keeps the balance |
| LoadFold.LoadCounter.CalcGlobalLoadRemove | Prj2/kernel/sched/core.c:5286-5290 | takes a dead CPU out of the sum and keeps the balance |
| LoadFold.LoadCounter.CalcLoadFoldIdle | Prj2/kernel/sched/core.c:2380-2389 | drains the read counter |
| LoadFold.LoadCounter.CalcGlobalNohz | Prj2/kernel/sched/core.c:2468-2499 | makes the catching-up step and then the flip of the index; the averages keep their order and side of the load |
| LoadFold.LoadCounter.CalcGlobalLoad | Prj2/kernel/sched/core.c:2510-2537 | computes the whole update; the instant lies in the window afterwards, and the averages keep their order and side of the load it finds |
| TgWalk.WalkTgTreeFrom | Prj2/kernel/sched/core.c:658-687 | the goto walk returns the same result and the same visitor state as the recursive traversal, and terminates |
| TgWalk.RecurseMakesEvents | Prj2/kernel/sched/core.c:652-687 | the recursive traversal makes exactly the calls of pre-order down and post-order up, stopping at the first non-zero result |
| TgWalk.LinksDetermineTree | Prj2/kernel/sched/core.c:658-687 | the links below a group describe one tree |
| TgWalk.OnlyRootIsFrom | Prj2/kernel/sched/core.c:678-684 | climbing meets the start group only at the end of the walk |
| TgWalk.Enter | Prj2/kernel/sched/core.c:666-672 | after a `down` call the remaining calls are those of the scan of its children |
| TgWalk.Leave | Prj2/kernel/sched/core.c:674-684 | after the last child exactly the `up` call and the rest of the parent remain |
| TgSchedulable.TgRtSchedulable | Prj2/kernel/sched/core.c:7566-7620 | the visitor with its child loop computes `RtCheck`, the sum on 32 bits |
| TgSchedulable.RtWalkExact | Prj2/kernel/sched/core.c:7622-7637 | for any settings at all, every group fits if and only if the walk returns 0 and no 32-bit sum wraps |
| TgSchedulable.AntichainWithin | Prj2/kernel/sched/core.c:7566-7620 | where every group fits, groups that do not contain one another never ask for more than the root has |
| TgSchedulable.NoWrapAfterChange | Prj2/kernel/sched/core.c:7604-7617 | from settings that fit, no single change that the walk accepts makes a sum wrap |
| TgSchedulable.ChangeIsExact | Prj2/kernel/sched/core.c:7622-7637 | against settings in force that fit, the walk accepts a change to one group if and only if every group fits afterwards |
| TgSchedulable.AcceptedIsFeasible | Prj2/kernel/sched/core.c:7566-7637 | after an accepted change the ratios of every antichain sum to at most the root ratio, itself at most the global one |
| TgSchedulable.RtNextKeeps | Prj2/kernel/sched/core.c:7639-7667 | creating or removing a group and setting a group or the global value keep every group fitting |
| TgSchedulable.ReachableIsFeasible | Prj2/kernel/sched/core.c:7566-7667 | every hierarchy reachable from boot, a global value being checked and stored in one step, fits, and every antichain in it is within the root and global ratios |
| TgSchedulable.RtSchedulable | Prj2/kernel/sched/core.c:7622-7637 | the stackless walk with this visitor returns 0 if and only if every group fits with the change; it never refuses what fits in real ratios |
| TgSchedulable.RtRatioIsFloor | Prj2/kernel/sched/core.c:7532-7538 | a runtime within its period has as ratio its real ratio in 2^-20ths, rounded down |
| TgSchedulable.RtTruncatesUnless | Prj2/kernel/sched/core.c:7532-7538 | a runtime within its period keeps its ratio through the 64-bit shift if and only if it is below 2^44 nanoseconds, which a 32-bit count of microseconds is |
| TgSchedulable.LongRuntimeCountsAsNothing | Prj2/kernel/sched/core.c:7532-7538 | at that limit a whole period counts as nothing |
| TgSchedulable.NoLimitIsMost | Prj2/kernel/sched/core.c:7534-7535 | no runtime within its period outweighs no limit |
| TgSchedulable.FitsInRealRatios | Prj2/kernel/sched/core.c:7566-7620 | a group that fits in real ratios, no limit counted as one, passes; one that passes fits up to a 2^-20th for itself and one for each child |
| TgSchedulable.RealFitsIsAccepted | Prj2/kernel/sched/core.c:7566-7637 | a hierarchy that fits in real ratios fits in the computed ones |
| TgSchedulable.NoLimitRefusesNothing | Prj2/kernel/sched/core.c:7598-7617 | without a global limit no group is refused for it, and a group without a limit takes any children that add up to at most one |
| TgSchedulable.RtErrors | Prj2/kernel/sched/core.c:7586-7620 | -EBUSY exactly for a group with real-time tasks that would be left without runtime; every other refusal is -EINVAL |
| TgSchedulable.TruncatesUnless | Prj2/kernel/sched/core.c:7532-7538 | a quota keeps its ratio in 32 bits if and only if it is less than 4096 periods |
| TgSchedulable.HugeQuotaPasses | Prj2/kernel/sched/core.c:8064-8105 | an admissible quota of 4096 periods normalizes to 0 and passes under any limit |
| TgSchedulable.NormalizedIsFloor | Prj2/kernel/sched/core.c:8064-8082 | below 4096 periods the normalized quota is the real ratio in 2^-20ths, rounded down |
| TgSchedulable.AllTighteningMeans | Prj2/kernel/sched/core.c:8084-8110 | then hierarchies in which no real ratio exceeds one above it pass the comparison, and in those that pass none does by more than a 2^-20th |
| TgSchedulable.PathLimitIsRealMinimum | Prj2/kernel/sched/core.c:8084-8110 | then the tightest limit on a path is its smallest real ratio, rounded down |
| TgSchedulable.Hierarchy.TgCfsSchedulableDown | Prj2/kernel/sched/core.c:8084-8110 | computes `CfsDown` and updates the field only on acceptance |
| TgSchedulable.CfsWalk | Prj2/kernel/sched/core.c:8084-8110 | from a right parent field the walk of a subtree accepts exactly those in which no normalized limit is looser than one above, and leaves every field the tightest normalized limit on its path |
| TgSchedulable.CfsSchedulable | Prj2/kernel/sched/core.c:8112-8131 | the walk accepts exactly when no normalized limit is looser than one above, and then every field is settled; with quotas below 4096 periods it accepts every tightening of real ratios, and nothing that is looser by more than a 2^-20th |
| TgSchedulable.FieldIsPathMinimum | Prj2/kernel/sched/core.c:8084-8110 | in a settled hierarchy every field is the minimum over the path from the root |
| TgSchedulable.PathLimitIsMinimum | Prj2/kernel/sched/core.c:8064-8082 | that value is a lower bound of the normalized quotas on the path and one of them |
| Wrr.NeighboursDiffer | Prj2/kernel/sched/wrr.c:435-440 | the test on the ring of list nodes asks exactly for another queued task |
| Wrr.SlicesBounded | Prj2/kernel/sched/wrr.c:401-429 | after every tick a slice is between 1 and a foreground slice |
| Wrr.NextKeeps | Prj2/kernel/sched/wrr.c:208-307 | every step, including group, nice and class changes of the running task, keeps the count equal to the queue, slices bounded, and the running task queued unless a reschedule is pending |
| Wrr.RunInv | Prj2/kernel/sched/wrr.c:208-307 | in every state of every run the count is the length of the queue, no slice exceeds a foreground slice, and unless a reschedule is pending the running task is queued |
| Wrr.HeadRunsUnlessDisplaced | Prj2/kernel/sched/core.c:7495-7525 | the running task stays the head exactly unless it enters the class running, or, with another task queued and no reschedule pending, is moved by a group change or by a nice change that leaves its priority as it was |
| Wrr.YieldGoesLast | Prj2/kernel/sched/wrr.c:272-277 | a yield puts the running task behind everybody, in unchanged order, and asks for the scheduler |
| Wrr.ReniceShortens | Prj2/kernel/sched/core.c:4026-4045 | a nice change lengthens nothing for the other tasks, whether it asks for a reschedule or not |
| Wrr.StepShortens | Prj2/kernel/sched/wrr.c:244-333 | no step of others lengthens what is due before a queued task, unless a running task enters the class, and every counted tick shortens it |
| Wrr.BoundedWaiting | Prj2/kernel/sched/wrr.c:385-442 | a task at position k that is not moved itself runs within k foreground slices of ticks, one more for a running task that is not ahead of it, and one for each running task that enters the class, whatever wakes, sleeps, yields, or changes group, nice value or class meanwhile |
| Wrr.HeadIsPicked | Prj2/kernel/sched/wrr.c:309-333 | at the head it is what the class picks, whoever is running |
| Wrr.EntryOvertakes | Prj2/kernel/sched/core.c:4336-4351 | entries must be counted: a running task that enters the class runs before the head and can leave again |
| Wrr.Turn | Prj2/kernel/sched/wrr.c:385-442 | one turn: the head runs for exactly the slice it has left, ends at the tail with a full slice, and nothing else changes |
| Wrr.Rotation | Prj2/kernel/sched/wrr.c:385-442 | a full rotation runs every task in order for exactly the slice it held, and restores the order |
| Wrr.RotationWeights | Prj2/include/linux/sched.h:1274-1275 | from the second rotation on a task of the root group runs for hz/10 ticks in each and any other for hz/100: ten times as long, as nearly as whole ticks allow |
| Wrr.WrrRq.DequeueWrrStack | Prj2/kernel/sched/wrr.c:176-206 | takes the task off if it is on; the WARN_ON cannot fire |
| Wrr.WrrRq.EnqueueTaskWrr | Prj2/kernel/sched/wrr.c:208-242 | puts the task at the asked end, once |
| Wrr.WrrRq.DequeueTaskWrr | Prj2/kernel/sched/wrr.c:279-291 | computes `DequeueTask` |
| Wrr.WrrRq.RequeueTaskWrr | Prj2/kernel/sched/wrr.c:244-270 | moves a queued task to one end and leaves the count |
| Wrr.WrrRq.YieldTaskWrr | Prj2/kernel/sched/wrr.c:272-277 | the yield step |
| Wrr.WrrRq.SchedMoveTask | Prj2/kernel/sched/core.c:7495-7525 | refinement step: dequeue, store the group, enqueue at the tail |
| Wrr.WrrRq.SetUserNice | Prj2/kernel/sched/core.c:4026-4045 | refinement step: dequeue, store the priority, enqueue at the tail, and ask for a reschedule if the task became more urgent, or less so while running |
| Wrr.WrrRq.EnterClass | Prj2/kernel/sched/core.c:4336-4351 | refinement step: a task, running or not, enters at the tail |
| Wrr.WrrRq.LeaveClass | Prj2/kernel/sched/core.c:4336-4351 | refinement step: a task, running or not, leaves the class |
| Wrr.WrrRq.PickNextTaskWrr | Prj2/kernel/sched/wrr.c:309-344 | the head, or nothing exactly when the queue is empty |
| Wrr.WrrRq.TaskTickWrr | Prj2/kernel/sched/wrr.c:385-442 | the tick step: refill, age, requeue and ask for a reschedule |
| ClassSwitch.ChangeKeeps | Prj2/kernel/sched/core.c:3979-3996 | dequeue, change, enqueue keeps every queue and counter right, whatever the old and new class |
| ClassSwitch.BoostedOk | Prj2/kernel/sched/core.c:3985-3990 | priority inheritance leaves a consistent task |
| ClassSwitch.RescheduledOk | Prj2/kernel/sched/core.c:4170-4186 | an accepted policy request leaves a consistent task |
| ClassSwitch.ChildOk | Prj2/kernel/sched/core.c:1736-1779 | a forked child is consistent, though its class may not match its policy |
| ClassSwitch.NextKeeps | Prj2/kernel/sched/core.c:3948-4354 | every step keeps class queues, counters and task fields consistent |
| ClassSwitch.RunInv | Prj2/kernel/sched/core.c:3948-4354 | in every state of every run each class queue holds exactly the queued tasks of its class and every counter counts them |
| ClassSwitch.QueuedInItsClass | Prj2/kernel/sched/core.c:3979-3998 | a task is queued if and only if it is marked so, then only in the queue of its class, and `nr_running` is the number of queued tasks |
| ClassSwitch.ShortcutTaken | Prj2/kernel/sched/core.c:3307-3311 | the shortcut is taken exactly when only fair tasks are queued |
| ClassSwitch.ShortcutAgrees | Prj2/kernel/sched/core.c:3297-3320 | the shortcut returns what the walk over the classes returns |
| ClassSwitch.ShortcutNeedsCounts | Prj2/kernel/sched/core.c:3307-3311 | with `nr_running` one too low it would not |
| ClassSwitch.PickRespectsClasses | Prj2/kernel/sched/core.c:3297-3320 | the pick is the best of the first class that has a task and is not throttled; idle means nothing could run |
| ClassSwitch.WrrChildIsFair | Prj2/kernel/sched/core.c:1775-1776 | a child of a wrr task is fair and keeps policy 6 |
| ClassSwitch.WrrRequestWorksIff | Prj2/kernel/sched/core.c:4304-4313 | a granted request for policy 6 leads into the class if and only if the task was in it or had another policy |
| ClassSwitch.RunQueue.Dequeue | Prj2/kernel/sched/core.c:722-727 | computes `DequeueTask`, and takes no counter below zero |
| ClassSwitch.RunQueue.Apply | Prj2/kernel/sched/core.c:4336-4351 | computes `Change` |
| ClassSwitch.RunQueue.SetPrio | Prj2/kernel/sched/core.c:3948-4000 | the inheritance step keeps the queue consistent |
| ClassSwitch.RunQueue.Renice | Prj2/kernel/sched/core.c:4003-4046 | computes `SetUserNice` and keeps the queue consistent |
| ClassSwitch.RunQueue.SchedSetscheduler | Prj2/kernel/sched/core.c:4207-4357 | computes `SetScheduler`, refuses exactly the invalid and the not permitted requests, and keeps the queue consistent |
| ClassSwitch.RunQueue.SchedFork | Prj2/kernel/sched/core.c:1736-1779 | the fork step keeps the queue consistent |
| ClassSwitch.RunQueue.PickNextTask | Prj2/kernel/sched/core.c:3297-3320 | returns what the walk over the classes would |
| ClassEffects.RequestGrantedIff | Prj2/kernel/sched/core.c:4217-4248 | a request is granted exactly when policy and priority go together and it is permitted; a senseless one is invalid, permitted or not |
| ClassEffects.GrantInForce | Prj2/kernel/sched/core.c:4170-4186 | a granted request is in force: policy, real-time priority and class, for this task alone; it boosts nobody |
| ClassEffects.ResetTakesIff | Prj2/kernel/sched/core.c:4304-4313 | a granted reset flag takes effect if and only if it was there or policy or real-time priority change too |
| ClassEffects.HigherRtPriorityFirst | Prj2/kernel/sched/core.c:3297-3320 | of two queued real-time tasks without boosts the one with the lower rt_priority is not picked |
| ClassEffects.GrantedOrder | Prj2/kernel/sched/core.c:4170-4186 | of two tasks whose requests are granted, the one that asked for the lower real-time priority is not picked |
| ClassEffects.ReniceMeans | Prj2/kernel/sched/core.c:4003-4046 | a nice value in range, counted from 120, becomes the static priority, and the priority unless the task is real-time, boosted or had it already; out of range nothing happens |
| ClassEffects.InheritorIsPicked | Prj2/kernel/sched/core.c:3979-3996 | a queued task that inherits a priority better than any in the real-time class is picked next, whatever its own class |
| ClassEffects.BoostUndoneIff | Prj2/kernel/sched/core.c:3985-3990 | inheriting and losing the last waiter restores the task if and only if it was not of the wrr class |
| ClassEffects.InheritPlaces | Prj2/kernel/sched/core.c:3995-3996 | a task whose priority gets worse goes to the front of its new level, any other to the back |
| ClassEffects.WakePlaces | Prj2/kernel/sched/core.c:729-735 | a task that wakes joins the tail of the queue of its class and level |
| ClassEffects.ChildMeans | Prj2/kernel/sched/core.c:1745-1776 | a child does not inherit a boost; with the reset flag it is a fair task of nice 0 or more without the flag |
| BurgerBuddies.OpenInv | Prj1/problem4/BurgerBuddies.c:49-67 | the invariant holds when the shop opens |
| BurgerBuddies.NextInv | Prj1/problem4/BurgerBuddies.c:69-129 | every step of every thread keeps it: mutexes held once, slots, orders, burgers and leavers conserved |
| BurgerBuddies.StuckMeansDone | Prj1/problem4/BurgerBuddies.c:69-129 | the only state in which every thread is blocked or gone is the end: all served, the rack full |
| BurgerBuddies.StepsLeftDecreases | Prj1/problem4/BurgerBuddies.c:69-129 | every step of any thread leaves exactly one step fewer |
| BurgerBuddies.EveryRunFinishes | Prj1/problem4/BurgerBuddies.c:69-129 | under any scheduling a run has at most 25 steps per customer and 6 per slot, ends exactly then, and has served everybody with customers plus slots burgers made |
| BurgerBuddies.BurgerShop.CookFunc | Prj1/problem4/BurgerBuddies.c:69-84 | one step of a cook on the shared semaphores |
| BurgerBuddies.BurgerShop.CashierFunc | Prj1/problem4/BurgerBuddies.c:85-108 | one step of a cashier |
| BurgerBuddies.BurgerShop.CustomFunc | Prj1/problem4/BurgerBuddies.c:109-129 | one step of a customer, with the leave counter and the termination signal |
| Ptree.GetPrinfo | Prj1/problem2/hello.c:28-44 | fills one entry, keeps its depth, and counts it |
| Ptree.DfsPtree | Prj1/problem2/hello.c:47-57 | advances the count by the size of the tree, overruns the buffer exactly when the count passes its end, and otherwise writes exactly the pre-order behind what is there |
| Ptree.Ptree | Prj1/problem2/hello.c:60-90 | the count is the size of the tree; the walk stays inside the 1024 entries if and only if there are at most 1024 tasks, and then the dump is the pre-order |
| Ptree.ReadForestInverts | Prj1/problem2/hello.c:47-57 | reading back pid and depth recovers the ordered forest and stops at the right entry |
| Ptree.DumpDeterminesTree | Prj1/problem2/hello.c:47-57 | the dump determines the ordered tree of pids |
| Ptree.DumpNamesParents | Prj1/problem2/hello.c:28-57 | the nearest earlier entry one level up is the parent, and is the one `parent_pid` names |

## Left out

- Machine widths: `jiffies` and the comparisons on it do not wrap, u64 times and the product of overruns and runtime are unbounded, and the fold's `long` counters are integers; the 32-bit registers of the load average, of the table decay and of the ratio sum are modelled.
- RtBandwidth.RunConserves: the allotments of all CPUs together must fit a u64, which `rt_period` limits far below that.
- RtBandwidth.BorrowerBounded: no bound by the period is claimed after disabling a neighbour, since that can push a queue above it.
- RtLedger.ThrottlingCaps: for one queue with sharing off; with sharing on only conservation is claimed.
- RtModel.PickIsBest: a stop task goes first and a throttled queue offers nothing; both are parts of the step.
- RtBalance.FindLockLowestRq: the choice of `find_lowest_rq` (cpupri, domains, cache heat) is a parameter that may answer anything the affinity mask allows; what the other CPUs do while the lock is dropped is any finite number of bursts of any enabled steps.
- RtBalance.PullRtTask: the overload mask and the cached next priority of a remote queue, which the source reads without that queue's lock, are read in the state of the moment.
- RtModel.BalancingSettles: the push and pull steps carry neither the overload test nor the events that make the scheduler push or pull, so the bound covers more runs than the code has; a task moved from under a stop task, a less urgent one, or one about to sleep is allowed for with a hundred further moves.
- RtRunqueue.RtScheduler.Schedule: `post_schedule`, clocks and statistics are not modelled, and the runtime side of `rq_online_rt` and `rq_offline_rt` is in `RtBandwidth`.
- LoadDecay.DecayNear: a load of 2^25 or more can leave the register in a product, whose high part is then lost.
- LoadFold.FirstFollowsFastest: for a load that does not change between averaging steps.
- TgSchedulable.RealFitsIsAccepted: for runtimes below 2^44 nanoseconds, within the period, as the interface makes them.
- LoadFold.BulkIsNear: needs the same active count for the single steps and at most 1023 tasks.
- Wrr.BoundedWaiting: counts ticks of the class while no reschedule is pending; a tick that comes before a pending reschedule is served is allowed but not counted. A group, nice or class change of the waiting task itself ends the wait, since it goes to the tail. Arrivals are at the tail, since only inheritance enqueues at the head and never in this class.
- Wrr.NextKeeps: `exec_start` and `sum_exec_runtime`, the watchdog and the SMP hooks, which the file names but does not define, are not modelled; throttling of this class is never set by the source.
- ClassSwitch.PickRespectsClasses: the fair class is a set with an arbitrary choice, the stop class is absent, and `put_prev_task` and `set_curr_task`, which change no membership, are not steps.
- ClassSwitch.RunQueue.SetPrio: the priority set is the better of the task's own and its waiters', as the callers in the rt-mutex code, which is not part of this model, compute it.
- ClassSwitch.RunQueue.SchedSetscheduler: capability and security checks are one boolean, and the best waiter's priority of the task's locks is a parameter.
- TgWalk.WalkTgTreeFrom: RCU and locking of the group tree; the links are a value during the walk.
- TgSchedulable.CfsSchedulable: the proposed quota and period come in the units that the caller has already converted them to.
- TgSchedulable.ReachableIsFeasible: ratios are compared in 2^-20ths, each rounded down, so the real ratios of n groups may exceed the root's by n such units; a global value is checked and stored in one step, while the source writes it before the check and takes it back on refusal.
- TgSchedulable.RtWalkExact: the child lists must be those of the walked tree, which the walk's locks guarantee.
- Ptree.Ptree: what an overrun of the buffer destroys is not modelled; allocation failure and the copy to user space are absent.
- Ptree.GetPrinfo: `first_child_pid` and `next_sibling_pid`, whose expressions resolve to the task's own list entry, and the 64-byte limit of `comm`.
- BurgerBuddies.EveryRunFinishes: thread creation is assumed to succeed; the busy wait of `main`, `pthread_kill` and the memory model of the termination flag are absent.
- Group scheduling of the run queues, cpupri internals, fair.c, stop_task, hrtimers, perf, cgroup files, sysctl, sched-domain construction and cpustat accounting.
- `get_avenrun`, `update_cpu_load` around the decay, and the choice of a CPU at wake-up: they would add easy members only.
