/** The stackless walk over the task-group tree.

    Groups are numbered, and each carries the links of `struct task_group`: its parent, the
    head of its child list, and its own entry in its parent's list.  `Tree` is the tree that
    those links describe; the walk itself follows links only. */
module TgWalk {

  datatype Link = Nil | To(id: nat)
  datatype Group = Group(parent: Link, first: Link, next: Link)
  datatype Tree = Tree(id: nat, children: seq<Tree>)

  function Head(trees: seq<Tree>): Link {
    if trees == [] then Nil else To(trees[0].id)
  }

  /** The links below group `t.id` describe the tree `t`. */
  predicate Linked(groups: seq<Group>, t: Tree)
    decreases t, 1
  {
    t.id < |groups| && groups[t.id].first == Head(t.children) && SiblingsLinked(groups, t.children, t.id)
  }

  predicate SiblingsLinked(groups: seq<Group>, trees: seq<Tree>, parent: nat)
    decreases trees, 0
  {
    trees == [] ||
    (Linked(groups, trees[0]) && groups[trees[0].id].parent == To(parent) &&
     groups[trees[0].id].next == Head(trees[1..]) && SiblingsLinked(groups, trees[1..], parent))
  }

  lemma {:induction false} SiblingAt(groups: seq<Group>, trees: seq<Tree>, parent: nat, i: nat)
    requires SiblingsLinked(groups, trees, parent) && i < |trees|
    ensures Linked(groups, trees[i]) && groups[trees[i].id].parent == To(parent)
    ensures groups[trees[i].id].next == Head(trees[i + 1..])
    decreases |trees|
  {
    if i > 0 {
      SiblingAt(groups, trees[1..], parent, i - 1);
      assert trees[1..][i..] == trees[i + 1..];
    }
  }

  // ---------------------------------------------------------------------------
  // the recursive traversal
  // ---------------------------------------------------------------------------

  /** A visitor gets a group and the data, and returns a result code and the new data. */
  type Visitor<!S> = (nat, S) -> (int, S)

  /** Call `down` on entering a group and `up` on leaving it; stop at a nonzero result. */
  function Recurse<S>(t: Tree, down: Visitor<S>, up: Visitor<S>, data: S): (int, S)
    decreases t, 1
  {
    var (ret, data1) := down(t.id, data);
    if ret != 0 then (ret, data1) else
    var (ret', data2) := RecurseAll(t.children, down, up, data1);
    if ret' != 0 then (ret', data2) else up(t.id, data2)
  }

  function RecurseAll<S>(trees: seq<Tree>, down: Visitor<S>, up: Visitor<S>, data: S): (int, S)
    decreases trees, 0
  {
    if trees == [] then (0, data) else
    var (ret, data1) := Recurse(trees[0], down, up, data);
    if ret != 0 then (ret, data1) else RecurseAll(trees[1..], down, up, data1)
  }

  datatype Event = Down(id: nat) | Up(id: nat)

  /** The visitor calls of a traversal that nothing stops. */
  function Events(t: Tree): seq<Event>
    decreases t, 1
  {
    [Down(t.id)] + AllEvents(t.children) + [Up(t.id)]
  }

  function AllEvents(trees: seq<Tree>): seq<Event>
    decreases trees, 0
  {
    if trees == [] then [] else Events(trees[0]) + AllEvents(trees[1..])
  }

  function Call<S>(e: Event, down: Visitor<S>, up: Visitor<S>, data: S): (int, S) {
    match e case Down(id) => down(id, data) case Up(id) => up(id, data)
  }

  /** Make the calls in order until one returns nonzero. */
  function CallAll<S>(events: seq<Event>, down: Visitor<S>, up: Visitor<S>, data: S): (int, S)
    decreases |events|
  {
    if events == [] then (0, data) else
    var (ret, data1) := Call(events[0], down, up, data);
    if ret != 0 then (ret, data1) else CallAll(events[1..], down, up, data1)
  }

  lemma {:induction false} CallAllConcat<S>(left: seq<Event>, right: seq<Event>, down: Visitor<S>, up: Visitor<S>, data: S)
    ensures var (ret, data1) := CallAll(left, down, up, data);
            CallAll(left + right, down, up, data) == if ret != 0 then (ret, data1) else CallAll(right, down, up, data1)
    decreases |left|
  {
    if left == [] {
      assert left + right == right;
    } else {
      var (ret, data1) := Call(left[0], down, up, data);
      assert (left + right)[1..] == left[1..] + right;
      if ret == 0 {
        CallAllConcat(left[1..], right, down, up, data1);
      }
    }
  }

  lemma CallOne<S>(e: Event, down: Visitor<S>, up: Visitor<S>, data: S)
    ensures CallAll([e], down, up, data) == Call(e, down, up, data)
  {
  }

  /** The recursive traversal makes exactly these calls. */
  lemma {:induction false} RecurseMakesEvents<S>(t: Tree, down: Visitor<S>, up: Visitor<S>, data: S)
    ensures Recurse(t, down, up, data) == CallAll(Events(t), down, up, data)
    decreases t, 1
  {
    var (ret, data1) := down(t.id, data);
    CallAllConcat([Down(t.id)], AllEvents(t.children) + [Up(t.id)], down, up, data);
    CallOne(Down(t.id), down, up, data);
    assert Events(t) == [Down(t.id)] + (AllEvents(t.children) + [Up(t.id)]);
    if ret == 0 {
      RecurseAllMakesEvents(t.children, down, up, data1);
      CallAllConcat(AllEvents(t.children), [Up(t.id)], down, up, data1);
      CallOne(Up(t.id), down, up, RecurseAll(t.children, down, up, data1).1);
    }
  }

  lemma {:induction false} RecurseAllMakesEvents<S>(trees: seq<Tree>, down: Visitor<S>, up: Visitor<S>, data: S)
    ensures RecurseAll(trees, down, up, data) == CallAll(AllEvents(trees), down, up, data)
    decreases trees, 0
  {
    if trees != [] {
      RecurseMakesEvents(trees[0], down, up, data);
      CallAllConcat(Events(trees[0]), AllEvents(trees[1..]), down, up, data);
      var (ret, data1) := Recurse(trees[0], down, up, data);
      if ret == 0 {
        RecurseAllMakesEvents(trees[1..], down, up, data1);
      }
    }
  }

  // ---------------------------------------------------------------------------
  // where the walk is
  // ---------------------------------------------------------------------------

  function TreeSize(t: Tree): nat
    decreases t, 1
  {
    1 + AllSize(t.children)
  }

  function AllSize(trees: seq<Tree>): nat
    decreases trees, 0
  {
    if trees == [] then 0 else TreeSize(trees[0]) + AllSize(trees[1..])
  }

  lemma {:induction false} ChildIsSmaller(trees: seq<Tree>, i: nat)
    requires i < |trees|
    ensures TreeSize(trees[i]) <= AllSize(trees)
    decreases |trees|
  {
    if i > 0 {
      ChildIsSmaller(trees[1..], i - 1);
    }
  }

  /** The links determine the tree below a group. */
  lemma {:induction false} LinksDetermineTree(groups: seq<Group>, t: Tree, t': Tree)
    requires Linked(groups, t) && Linked(groups, t') && t.id == t'.id
    ensures t == t'
    decreases t, 1
  {
    LinksDetermineSiblings(groups, t.children, t'.children, t.id);
  }

  lemma {:induction false} LinksDetermineSiblings(groups: seq<Group>, trees: seq<Tree>, trees': seq<Tree>, parent: nat)
    requires SiblingsLinked(groups, trees, parent) && SiblingsLinked(groups, trees', parent) && Head(trees) == Head(trees')
    ensures trees == trees'
    decreases trees, 0
  {
    if trees != [] {
      LinksDetermineTree(groups, trees[0], trees'[0]);
      LinksDetermineSiblings(groups, trees[1..], trees'[1..], parent);
      assert trees == [trees[0]] + trees[1..] && trees' == [trees'[0]] + trees'[1..];
    }
  }

  /** The groups entered and not yet left, innermost first, each with the child reached. */
  datatype Path = Start | Inside(t: Tree, i: nat, outer: Path)

  /** `path` leads from `root` down to `t`. */
  predicate LeadsTo(groups: seq<Group>, path: Path, root: Tree, t: Tree)
    decreases path
  {
    match path
    case Start => t == root
    case Inside(p, i, outer) =>
      i < |p.children| && p.children[i] == t && Linked(groups, p) && LeadsTo(groups, outer, root, p)
  }

  lemma {:induction false} DeeperIsSmaller(groups: seq<Group>, path: Path, root: Tree, t: Tree)
    requires LeadsTo(groups, path, root, t)
    ensures if path.Start? then t == root else TreeSize(t) < TreeSize(root)
    decreases path
  {
    if path.Inside? {
      ChildIsSmaller(path.t.children, path.i);
      DeeperIsSmaller(groups, path.outer, root, path.t);
    }
  }

  /** Only the root has the root's number, so `parent == from` stops at the right group. */
  lemma OnlyRootIsFrom(groups: seq<Group>, path: Path, root: Tree, t: Tree)
    requires LeadsTo(groups, path, root, t) && Linked(groups, t) && Linked(groups, root)
    ensures t.id == root.id <==> path.Start?
  {
    DeeperIsSmaller(groups, path, root, t);
    if t.id == root.id {
      LinksDetermineTree(groups, t, root);
    }
  }

  /** The calls still to make once the tree at the end of `path` is done. */
  function After(path: Path): seq<Event>
    decreases path
  {
    match path
    case Start => []
    case Inside(p, i, outer) =>
      (if i < |p.children| then AllEvents(p.children[i + 1..]) else []) + [Up(p.id)] + After(outer)
  }

  /** The labels of the code: about to enter `t`, or at the test of the loop over its
      children, the first `i` of which are done. */
  datatype Position = Entering(path: Path, t: Tree) | Scanning(path: Path, t: Tree, i: nat)

  predicate Valid(groups: seq<Group>, root: Tree, pos: Position) {
    Linked(groups, pos.t) && LeadsTo(groups, pos.path, root, pos.t) && (pos.Scanning? ==> pos.i <= |pos.t.children|)
  }

  function Remaining(pos: Position): seq<Event> {
    match pos
    case Entering(path, t) => Events(t) + After(path)
    case Scanning(path, t, i) => (if i < |t.children| then AllEvents(t.children[i..]) else []) + [Up(t.id)] + After(path)
  }

  /** The child pointer that belongs to a position of the child loop. */
  function ChildLink(pos: Position): Link {
    if pos.Scanning? && pos.i < |pos.t.children| then To(pos.t.children[pos.i].id) else Nil
  }

  lemma Enter(groups: seq<Group>, root: Tree, pos: Position)
    requires Valid(groups, root, pos) && pos.Entering?
    ensures var pos' := Scanning(pos.path, pos.t, 0);
            && Valid(groups, root, pos') && groups[pos.t.id].first == ChildLink(pos')
            && Remaining(pos) == [Down(pos.t.id)] + Remaining(pos')
  {
    var t := pos.t;
    assert t.children[0..] == t.children;
    assert Remaining(Scanning(pos.path, t, 0)) == AllEvents(t.children) + [Up(t.id)] + After(pos.path);
    assert Remaining(pos) == [Down(t.id)] + AllEvents(t.children) + [Up(t.id)] + After(pos.path);
  }

  lemma Descend(groups: seq<Group>, root: Tree, pos: Position)
    requires Valid(groups, root, pos) && pos.Scanning? && pos.i < |pos.t.children|
    ensures var pos' := Entering(Inside(pos.t, pos.i, pos.path), pos.t.children[pos.i]);
            && Valid(groups, root, pos')
            && Remaining(pos') == Remaining(pos)
  {
    hide Events, AllEvents, After;
    SiblingAt(groups, pos.t.children, pos.t.id, pos.i);
    DescendEvents(pos.path, pos.t, pos.i);
  }

  lemma DescendEvents(path: Path, t: Tree, i: nat)
    requires i < |t.children|
    ensures Remaining(Entering(Inside(t, i, path), t.children[i])) == Remaining(Scanning(path, t, i))
  {
    assert t.children[i..][1..] == t.children[i + 1..];
  }

  lemma Leave(groups: seq<Group>, root: Tree, pos: Position)
    requires Valid(groups, root, pos) && pos.Scanning? && pos.i == |pos.t.children| && Linked(groups, root)
    ensures pos.t.id == root.id <==> pos.path.Start?
    ensures pos.path.Start? ==> Remaining(pos) == [Up(pos.t.id)]
    ensures pos.path.Inside? ==>
              var pos' := Scanning(pos.path.outer, pos.path.t, pos.path.i + 1);
              && Valid(groups, root, pos')
              && groups[pos.t.id].parent == To(pos.path.t.id) && groups[pos.t.id].next == ChildLink(pos')
              && Remaining(pos) == [Up(pos.t.id)] + Remaining(pos')
  {
    OnlyRootIsFrom(groups, pos.path, root, pos.t);
    if pos.path.Inside? {
      SiblingAt(groups, pos.path.t.children, pos.path.t.id, pos.path.i);
      if pos.path.i + 1 == |pos.path.t.children| {
        assert pos.path.t.children[pos.path.i + 1..] == [];
      }
    }
  }

  lemma CallNext<S>(e: Event, rest: seq<Event>, down: Visitor<S>, up: Visitor<S>, data: S)
    ensures var (ret, data1) := Call(e, down, up, data);
            CallAll([e] + rest, down, up, data) == if ret != 0 then (ret, data1) else CallAll(rest, down, up, data1)
  {
  }

  // ---------------------------------------------------------------------------
  // the code
  // ---------------------------------------------------------------------------

  /** `walk_tg_tree_from`.  With `entering` the code is at the label `down`; otherwise it is at
      the test of the child loop, which the label `up` re-enters at the next sibling.  The
      ghost `pos` records where in the tree the links have led. */
  method WalkTgTreeFrom<S>(groups: seq<Group>, ghost root: Tree, from: nat, down: Visitor<S>, up: Visitor<S>, data0: S)
      returns (ret: int, data: S)
    requires Linked(groups, root) && root.id == from
    ensures (ret, data) == Recurse(root, down, up, data0)
  {
    var parent, child, entering := from, Nil, true;
    data := data0;
    ghost var pos := Entering(Start, root);
    RecurseMakesEvents(root, down, up, data0);
    assert Remaining(pos) == Events(root);
    hide Remaining, Valid, Events, Recurse, CallAll;
    assert Valid(groups, root, pos) by {
      AtStart(groups, root);
    }
    while true
      invariant Valid(groups, root, pos) && parent == pos.t.id < |groups| && entering == pos.Entering?
      invariant !entering ==> child == ChildLink(pos) && pos.i <= |pos.t.children|
      invariant CallAll(Remaining(pos), down, up, data) == Recurse(root, down, up, data0)
      decreases |Remaining(pos)|, !entering
    {
      if entering {
        Enter(groups, root, pos);
        CallNext(Down(parent), Remaining(Scanning(pos.path, pos.t, 0)), down, up, data);
        var result := down(parent, data);
        ret, data := result.0, result.1;
        if ret != 0 {
          return;
        }
        child := groups[parent].first;
        entering := false;
        pos := Scanning(pos.path, pos.t, 0);
      } else if child.To? {
        Descend(groups, root, pos);
        parent := child.id;
        entering := true;
        pos := Entering(Inside(pos.t, pos.i, pos.path), pos.t.children[pos.i]);
        InRange(groups, root, pos);
      } else {
        Leave(groups, root, pos);
        var result := up(parent, data);
        if pos.path.Start? {
          CallOne(Up(parent), down, up, data);
        } else {
          CallNext(Up(parent), Remaining(Scanning(pos.path.outer, pos.path.t, pos.path.i + 1)), down, up, data);
        }
        ret, data := result.0, result.1;
        if ret != 0 || parent == from {
          return;
        }
        child := To(parent);
        if groups[parent].parent.To? {
          parent := groups[parent].parent.id;
        } else {
          // every group below `from` has a parent
          assert false;
        }
        child := groups[child.id].next;
        pos := Scanning(pos.path.outer, pos.path.t, pos.path.i + 1);
        InRange(groups, root, pos);
      }
    }
  }

  lemma AtStart(groups: seq<Group>, root: Tree)
    requires Linked(groups, root)
    ensures Valid(groups, root, Entering(Start, root))
  {
  }

  lemma InRange(groups: seq<Group>, root: Tree, pos: Position)
    requires Valid(groups, root, pos)
    ensures pos.t.id < |groups| && (pos.Scanning? ==> pos.i <= |pos.t.children|)
  {
  }
}
