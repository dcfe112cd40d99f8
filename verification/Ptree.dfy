/** The process-tree dump: a depth-first walk that fills a flat buffer. */
module Ptree {

  datatype Parent = NoParent | ParentPid(pid: int)

  /** A task, with its children in list order. */
  datatype Task = Task(pid: int, parent: Parent, state: int, uid: int, comm: string, children: seq<Task>)

  datatype Prinfo = Prinfo(parentPid: int, pid: int, state: int, uid: int, comm: string, depth: nat)

  function Info(task: Task, depth: nat): Prinfo {
    Prinfo(match task.parent case NoParent => 0 case ParentPid(pid) => pid,
           task.pid, task.state, task.uid, task.comm, depth)
  }

  function Size(task: Task): (n: nat)
    ensures n >= 1
    decreases task, 1
  {
    1 + ForestSize(task.children)
  }

  function ForestSize(tasks: seq<Task>): nat
    decreases tasks, 0
  {
    if tasks == [] then 0 else Size(tasks[0]) + ForestSize(tasks[1..])
  }

  /** Parent first, then the children's subtrees in order, one level deeper. */
  function PreOrder(task: Task, depth: nat): (entries: seq<Prinfo>)
    ensures |entries| == Size(task)
    decreases task, 1
  {
    [Info(task, depth)] + ForestOrder(task.children, depth + 1)
  }

  function ForestOrder(tasks: seq<Task>, depth: nat): (entries: seq<Prinfo>)
    ensures |entries| == ForestSize(tasks)
    decreases tasks, 0
  {
    if tasks == [] then [] else PreOrder(tasks[0], depth) + ForestOrder(tasks[1..], depth)
  }

  lemma {:induction false} ForestOrderAppend(tasks: seq<Task>, task: Task, depth: nat)
    ensures ForestOrder(tasks + [task], depth) == ForestOrder(tasks, depth) + PreOrder(task, depth)
    ensures ForestSize(tasks + [task]) == ForestSize(tasks) + Size(task)
    decreases |tasks|
  {
    if tasks == [] {
      assert tasks + [task] == [task];
      assert ForestOrder([task], depth) == PreOrder(task, depth) + ForestOrder([task][1..], depth);
    } else {
      assert (tasks + [task])[1..] == tasks[1..] + [task];
      ForestOrderAppend(tasks[1..], task, depth);
    }
  }

  /** One more child of a forest, as the child loop meets it. */
  lemma NextChild(tasks: seq<Task>, k: nat, depth: nat)
    requires k < |tasks|
    ensures ForestOrder(tasks[..k + 1], depth) == ForestOrder(tasks[..k], depth) + PreOrder(tasks[k], depth)
    ensures ForestSize(tasks[..k + 1]) == ForestSize(tasks[..k]) + Size(tasks[k]) <= ForestSize(tasks)
  {
    assert tasks[..k + 1] == tasks[..k] + [tasks[k]];
    ForestOrderAppend(tasks[..k], tasks[k], depth);
    PrefixSize(tasks, k + 1);
  }

  lemma {:induction false} PrefixSize(tasks: seq<Task>, k: nat)
    requires k <= |tasks|
    ensures ForestSize(tasks[..k]) <= ForestSize(tasks)
    decreases |tasks|
  {
    if k > 0 {
      assert tasks[..k][1..] == tasks[1..][..k - 1];
      PrefixSize(tasks[1..], k - 1);
    }
  }

  // ---------------------------------------------------------------------------
  // the code
  // ---------------------------------------------------------------------------

  /** The `int *nr` that the recursion shares, and whether a store went past the end of the
      buffer, which the C code does not notice. */
  class Counter {
    var nr: nat
    var overran: bool

    constructor ()
      ensures nr == 0 && !overran
    {
      nr, overran := 0, false;
    }
  }

  /** `before` with `entries` stored from index `at` on. */
  function Written(before: seq<Prinfo>, at: nat, entries: seq<Prinfo>): seq<Prinfo>
    requires at + |entries| <= |before|
  {
    before[..at] + entries + before[at + |entries|..]
  }

  lemma WrittenAppend(before: seq<Prinfo>, at: nat, first: seq<Prinfo>, second: seq<Prinfo>)
    requires at + |first| + |second| <= |before|
    ensures Written(Written(before, at, first), at + |first|, second) == Written(before, at, first + second)
  {
  }

  /** Fills one entry, keeping the depth already stored there, and counts it. */
  method GetPrinfo(task: Task, buf: array<Prinfo>, at: nat, counter: Counter)
    modifies buf, counter
    ensures at < buf.Length ==> buf[..] == old(buf[..])[at := Info(task, old(buf[at].depth))]
    ensures at < buf.Length ==>
      && buf[at].pid == task.pid && buf[at].state == task.state && buf[at].uid == task.uid && buf[at].comm == task.comm
      && buf[at].depth == old(buf[at].depth)
      && buf[at].parentPid == match task.parent case NoParent => 0 case ParentPid(pid) => pid
    ensures counter.overran == (old(counter.overran) || at >= buf.Length)
    ensures counter.nr == old(counter.nr) + 1
  {
    var parentPid := match task.parent case NoParent => 0 case ParentPid(pid) => pid;
    if at < buf.Length {
      buf[at] := buf[at].(parentPid := parentPid, pid := task.pid, state := task.state, uid := task.uid, comm := task.comm);
    } else {
      counter.overran := true;
    }
    counter.nr := counter.nr + 1;
  }

  /** The first two lines of `dfs_ptree`. */
  method StoreRoot(root: Task, buf: array<Prinfo>, counter: Counter, depth: nat)
    modifies buf, counter
    ensures old(counter.nr) < buf.Length ==> buf[..] == old(buf[..])[old(counter.nr) := Info(root, depth)]
    ensures counter.overran == (old(counter.overran) || counter.nr > buf.Length)
    ensures counter.nr == old(counter.nr) + 1
  {
    if counter.nr < buf.Length {
      buf[counter.nr] := buf[counter.nr].(depth := depth);
    }
    GetPrinfo(root, buf, counter.nr, counter);
  }

  /** The loop invariant of `dfs_ptree`: from `at` on, `now` holds the root's entry and the
      subtrees of its first `i` children, and `nr` points behind them. */
  predicate Dumped(before: seq<Prinfo>, at: nat, root: Task, depth: nat, i: nat, now: seq<Prinfo>, nr: nat) {
    && i <= |root.children|
    && nr == at + 1 + ForestSize(root.children[..i])
    && nr <= at + Size(root) <= |before|
    && now == Written(before, at, [Info(root, depth)] + ForestOrder(root.children[..i], depth + 1))
  }

  lemma DumpStarts(before: seq<Prinfo>, at: nat, root: Task, depth: nat)
    requires at + Size(root) <= |before|
    ensures Dumped(before, at, root, depth, 0, before[at := Info(root, depth)], at + 1)
  {
  }

  lemma DumpContinues(before: seq<Prinfo>, at: nat, root: Task, depth: nat, i: nat, now: seq<Prinfo>, nr: nat)
    requires Dumped(before, at, root, depth, i, now, nr) && i < |root.children|
    ensures nr + Size(root.children[i]) <= |now|
    ensures Dumped(before, at, root, depth, i + 1, Written(now, nr, PreOrder(root.children[i], depth + 1)),
                   nr + Size(root.children[i]))
  {
    NextChild(root.children, i, depth + 1);
    hide ForestOrder, PreOrder;
    var done := [Info(root, depth)] + ForestOrder(root.children[..i], depth + 1);
    WrittenAppend(before, at, done, PreOrder(root.children[i], depth + 1));
    assert done + PreOrder(root.children[i], depth + 1)
        == [Info(root, depth)] + ForestOrder(root.children[..i + 1], depth + 1);
  }

  lemma DumpEnds(before: seq<Prinfo>, at: nat, root: Task, depth: nat, now: seq<Prinfo>, nr: nat)
    requires Dumped(before, at, root, depth, |root.children|, now, nr)
    ensures nr == at + Size(root) <= |before| && now == Written(before, at, PreOrder(root, depth))
  {
    assert root.children[..|root.children|] == root.children;
  }

  /** The loop as a whole: the count so far, whether it overran, and if the tree fits, the dump
      so far. */
  predicate Walked(before: seq<Prinfo>, at: nat, was: bool, root: Task, depth: nat, i: nat,
                   now: seq<Prinfo>, nr: nat, overran: bool) {
    && i <= |root.children| && nr == at + 1 + ForestSize(root.children[..i])
    && overran == (was || nr > |before|)
    && (at + Size(root) <= |before| ==> Dumped(before, at, root, depth, i, now, nr))
  }

  lemma WalkStarts(before: seq<Prinfo>, at: nat, was: bool, root: Task, depth: nat, now: seq<Prinfo>)
    requires at < |before| ==> now == before[at := Info(root, depth)]
    ensures Walked(before, at, was, root, depth, 0, now, at + 1, was || at + 1 > |before|)
  {
    if at + Size(root) <= |before| {
      DumpStarts(before, at, root, depth);
    }
  }

  lemma WalkContinues(before: seq<Prinfo>, at: nat, was: bool, root: Task, depth: nat, i: nat,
                      now: seq<Prinfo>, nr: nat, overran: bool, now': seq<Prinfo>)
    requires Walked(before, at, was, root, depth, i, now, nr, overran) && i < |root.children| && |now| == |before|
    requires var nr' := nr + Size(root.children[i]);
      nr' <= |now| ==> now' == Written(now, nr, PreOrder(root.children[i], depth + 1))
    ensures var nr' := nr + Size(root.children[i]);
      Walked(before, at, was, root, depth, i + 1, now', nr', overran || nr' > |before|)
  {
    hide Dumped, Written, PreOrder, Size, ForestSize;
    NextChild(root.children, i, depth + 1);
    if at + Size(root) <= |before| {
      DumpContinues(before, at, root, depth, i, now, nr);
    }
  }

  lemma WalkEnds(before: seq<Prinfo>, at: nat, was: bool, root: Task, depth: nat, now: seq<Prinfo>, nr: nat, overran: bool)
    requires Walked(before, at, was, root, depth, |root.children|, now, nr, overran)
    ensures nr == at + Size(root) && overran == (was || nr > |before|)
    ensures nr <= |before| ==> now == Written(before, at, PreOrder(root, depth))
  {
    hide Dumped, Written, PreOrder;
    assert root.children[..|root.children|] == root.children;
    if at + Size(root) <= |before| {
      DumpEnds(before, at, root, depth, now, nr);
    }
  }

  /** `dfs_ptree`: counts the tree, overruns the buffer exactly when the count passes its
      end, and otherwise writes exactly the pre-order of the tree behind what is there. */
  method DfsPtree(root: Task, buf: array<Prinfo>, counter: Counter, depth: nat)
    modifies buf, counter
    ensures counter.nr == old(counter.nr) + Size(root)
    ensures counter.overran == (old(counter.overran) || counter.nr > buf.Length)
    ensures counter.nr <= buf.Length ==> buf[..] == Written(old(buf[..]), old(counter.nr), PreOrder(root, depth))
    decreases root
  {
    ghost var before, at, was := buf[..], counter.nr, counter.overran;
    hide Walked, PreOrder, Size, Written;
    StoreRoot(root, buf, counter, depth);
    WalkStarts(before, at, was, root, depth, buf[..]);
    var i: nat := 0;
    while i < |root.children|
      invariant i <= |root.children|
      invariant Walked(before, at, was, root, depth, i, buf[..], counter.nr, counter.overran)
    {
      ghost var now, nr, overran := buf[..], counter.nr, counter.overran;
      DfsPtree(root.children[i], buf, counter, depth + 1);
      WalkContinues(before, at, was, root, depth, i, now, nr, overran, buf[..]);
      i := i + 1;
    }
    WalkEnds(before, at, was, root, depth, buf[..], counter.nr, counter.overran);
  }

  /** The body of the system call, with its buffer of 1024 entries: the count is the size of
      the tree, the walk stays inside the buffer if and only if the tree has at most 1024
      tasks, and then the buffer holds the whole dump. */
  method Ptree(init: Task) returns (dump: seq<Prinfo>, nr: nat, overran: bool)
    ensures nr == Size(init)
    ensures overran <==> Size(init) > 1024
    ensures !overran ==> dump == PreOrder(init, 0)
  {
    var buf := new Prinfo[1024](_ => Prinfo(0, 0, 0, 0, "", 0));
    var counter := new Counter();
    DfsPtree(init, buf, counter, 0);
    nr, overran := counter.nr, counter.overran;
    dump := if nr <= buf.Length then buf[..nr] else [];
  }

  // ---------------------------------------------------------------------------
  // reading the tree back
  // ---------------------------------------------------------------------------

  datatype PidTree = PidTree(pid: int, children: seq<PidTree>)

  function Pids(task: Task): PidTree
    decreases task, 1
  {
    PidTree(task.pid, ForestPids(task.children))
  }

  function ForestPids(tasks: seq<Task>): seq<PidTree>
    decreases tasks, 0
  {
    if tasks == [] then [] else [Pids(tasks[0])] + ForestPids(tasks[1..])
  }

  /** Reads as many trees rooted at `depth` as the entries start with, looking at nothing but
      each entry's pid and depth; returns them and the entries that are left. */
  function ReadForest(entries: seq<Prinfo>, depth: nat): (r: (seq<PidTree>, seq<Prinfo>))
    ensures |r.1| <= |entries|
    decreases |entries|
  {
    if entries == [] || entries[0].depth != depth then
      ([], entries)
    else
      var (children, rest) := ReadForest(entries[1..], depth + 1);
      var (siblings, rest') := ReadForest(rest, depth);
      ([PidTree(entries[0].pid, children)] + siblings, rest')
  }

  /** A forest's entries are its first root, that root's subtree, and the rest. */
  lemma ForestOrderSplits(tasks: seq<Task>, depth: nat, rest: seq<Prinfo>)
    requires tasks != [] && (rest == [] || rest[0].depth < depth)
    ensures var rest' := ForestOrder(tasks[1..], depth) + rest;
            && ForestOrder(tasks, depth) + rest == [Info(tasks[0], depth)] + (ForestOrder(tasks[0].children, depth + 1) + rest')
            && (rest' == [] || rest'[0].depth < depth + 1)
  {
    var below := ForestOrder(tasks[0].children, depth + 1);
    assert ForestOrder(tasks, depth) == ([Info(tasks[0], depth)] + below) + ForestOrder(tasks[1..], depth);
    if |tasks| > 1 {
      assert ForestOrder(tasks[1..], depth)[0] == PreOrder(tasks[1], depth)[0];
    } else {
      assert ForestOrder(tasks[1..], depth) + rest == rest;
    }
  }

  lemma {:induction false} ReadForestInverts(tasks: seq<Task>, depth: nat, rest: seq<Prinfo>)
    requires rest == [] || rest[0].depth < depth
    ensures ReadForest(ForestOrder(tasks, depth) + rest, depth) == (ForestPids(tasks), rest)
    decreases tasks
  {
    if tasks == [] {
      assert ForestOrder(tasks, depth) + rest == rest;
    } else {
      hide ForestOrder;
      var rest' := ForestOrder(tasks[1..], depth) + rest;
      var entries := ForestOrder(tasks, depth) + rest;
      ForestOrderSplits(tasks, depth, rest);
      assert entries[1..] == ForestOrder(tasks[0].children, depth + 1) + rest';
      ReadForestInverts(tasks[0].children, depth + 1, rest');
      ReadForestInverts(tasks[1..], depth, rest);
    }
  }

  /** The dump determines the ordered tree of pids. */
  lemma DumpDeterminesTree(task: Task)
    ensures ReadForest(PreOrder(task, 0), 0) == ([Pids(task)], [])
  {
    ReadForestInverts([task], 0, []);
    assert ForestOrder([task], 0) + [] == PreOrder(task, 0);
    assert ForestPids([task]) == [Pids(task)];
  }

  /** Every child records its parent's pid. */
  predicate WellLinked(task: Task)
    decreases task, 1
  {
    ForestLinked(task.children, task.pid)
  }

  predicate ForestLinked(tasks: seq<Task>, parent: int)
    decreases tasks, 0
  {
    tasks == [] || (tasks[0].parent == ParentPid(parent) && WellLinked(tasks[0]) && ForestLinked(tasks[1..], parent))
  }

  /** `i` is the nearest entry before `j` that is one level up. */
  predicate NearestAbove(entries: seq<Prinfo>, i: nat, j: nat)
    requires j < |entries|
  {
    i < j && entries[i].depth + 1 == entries[j].depth && forall k :: i < k < j ==> entries[k].depth != entries[i].depth
  }

  /** Every entry below `depth` names as its parent the nearest entry one level up; entries
      at `depth` name `parent`. */
  ghost predicate ParentsReadable(entries: seq<Prinfo>, depth: nat, parent: int) {
    forall j :: 0 <= j < |entries| ==>
      && entries[j].depth >= depth
      && (entries[j].depth == depth ==> entries[j].parentPid == parent)
      && (entries[j].depth > depth ==> HasNearest(entries, j))
  }

  ghost predicate HasNearest(entries: seq<Prinfo>, j: nat)
    requires j < |entries|
  {
    exists i: nat :: i < j && NearestAbove(entries, i, j) && entries[j].parentPid == entries[i].pid
  }

  lemma NearestShifts(left: seq<Prinfo>, right: seq<Prinfo>, j: nat)
    requires j < |right| && HasNearest(right, j)
    ensures HasNearest(left + right, |left| + j)
  {
    var n, all := |left|, left + right;
    var i: nat :| i < j && NearestAbove(right, i, j) && right[j].parentPid == right[i].pid;
    assert all[n + i] == right[i] && all[n + j] == right[j];
    forall k | n + i < k < n + j
      ensures all[k].depth != all[n + i].depth
    {
      assert all[k] == right[k - n];
    }
    assert NearestAbove(all, n + i, n + j);
  }

  lemma NearestExtends(left: seq<Prinfo>, right: seq<Prinfo>, j: nat)
    requires j < |left| && HasNearest(left, j)
    ensures HasNearest(left + right, j)
  {
    var i: nat :| i < j && NearestAbove(left, i, j) && left[j].parentPid == left[i].pid;
    assert NearestAbove(left + right, i, j);
  }

  lemma ReadableConcat(left: seq<Prinfo>, right: seq<Prinfo>, depth: nat, parent: int)
    requires ParentsReadable(left, depth, parent) && ParentsReadable(right, depth, parent)
    ensures ParentsReadable(left + right, depth, parent)
  {
    hide HasNearest;
    var all := left + right;
    forall j | 0 <= j < |all| && all[j].depth > depth
      ensures HasNearest(all, j)
    {
      if j < |left| {
        NearestExtends(left, right, j);
      } else {
        NearestShifts(left, right, j - |left|);
      }
    }
  }

  lemma FirstIsNearest(root: Prinfo, below: seq<Prinfo>, j: nat)
    requires forall k :: 0 <= k < |below| ==> below[k].depth > root.depth
    requires j < |below| && below[j].depth == root.depth + 1 && below[j].parentPid == root.pid
    ensures HasNearest([root] + below, j + 1)
  {
    var all := [root] + below;
    assert all[j + 1] == below[j];
    forall k | 0 < k < j + 1
      ensures all[k].depth != root.depth
    {
      assert all[k] == below[k - 1];
    }
    assert NearestAbove(all, 0, j + 1);
  }

  lemma BelowRootNamed(root: Prinfo, below: seq<Prinfo>, j: nat)
    requires ParentsReadable(below, root.depth + 1, root.pid) && j < |below|
    ensures HasNearest([root] + below, j + 1)
  {
    hide HasNearest;
    if below[j].depth == root.depth + 1 {
      FirstIsNearest(root, below, j);
    } else {
      NearestShifts([root], below, j);
    }
  }

  lemma ReadableRoot(root: Prinfo, below: seq<Prinfo>, parent: int)
    requires root.parentPid == parent && ParentsReadable(below, root.depth + 1, root.pid)
    ensures ParentsReadable([root] + below, root.depth, parent)
  {
    hide HasNearest;
    var all := [root] + below;
    forall j | 0 <= j < |all| && all[j].depth > root.depth
      ensures HasNearest(all, j)
    {
      BelowRootNamed(root, below, j - 1);
    }
  }

  lemma {:induction false} ForestReadable(tasks: seq<Task>, depth: nat, parent: int)
    requires ForestLinked(tasks, parent)
    ensures ParentsReadable(ForestOrder(tasks, depth), depth, parent)
    decreases tasks
  {
    if tasks != [] {
      ForestReadable(tasks[0].children, depth + 1, tasks[0].pid);
      ReadableRoot(Info(tasks[0], depth), ForestOrder(tasks[0].children, depth + 1), parent);
      ForestReadable(tasks[1..], depth, parent);
      ReadableConcat(PreOrder(tasks[0], depth), ForestOrder(tasks[1..], depth), depth, parent);
    }
  }

  /** In the dump of a well-linked tree, the parent of every entry but the first is the
      nearest earlier entry one level up, and that is what its `parent_pid` says. */
  lemma DumpNamesParents(task: Task, j: nat)
    requires WellLinked(task) && 1 <= j < Size(task)
    ensures HasNearest(PreOrder(task, 0), j)
  {
    var below := ForestOrder(task.children, 1);
    assert PreOrder(task, 0) == [Info(task, 0)] + below;
    assert |below| == Size(task) - 1;
    hide HasNearest, ForestOrder, ParentsReadable, PreOrder, Size;
    ForestReadable(task.children, 1, task.pid);
    BelowRootNamed(Info(task, 0), below, j - 1);
  }
}
