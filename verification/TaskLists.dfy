/** Lists of tasks, as the scheduler's intrusive lists keep them: a task stands on a list at
    most once. */
module TaskLists {

  type Tid = nat

  datatype Option<T> = None | Some(value: T)

  predicate Unique(s: seq<Tid>) {
    forall i: nat, j: nat :: i < j < |s| ==> s[i] != s[j]
  }

  /** `list_del`, `plist_del`: taking out what is not there changes nothing. */
  function Remove(s: seq<Tid>, t: Tid): seq<Tid> {
    if s == [] then [] else if s[0] == t then s[1..] else [s[0]] + Remove(s[1..], t)
  }

  /** `list_add` and `list_add_tail`. */
  function AddTo(queue: seq<Tid>, t: Tid, head: bool): seq<Tid> {
    if head then [t] + queue else queue + [t]
  }

  lemma {:induction false} RemoveKeeps(s: seq<Tid>, t: Tid)
    requires Unique(s)
    ensures Unique(Remove(s, t))
    ensures forall u :: u in Remove(s, t) <==> u in s && u != t
    ensures t !in s ==> Remove(s, t) == s
  {
    if s != [] {
      assert forall u <- s[1..] :: exists j: nat :: 1 <= j < |s| && s[j] == u;
      assert s[0] !in s[1..];
      RemoveKeeps(s[1..], t);
      assert s == [s[0]] + s[1..];
      assert forall u :: u in s <==> u == s[0] || u in s[1..];
    }
  }

  lemma {:induction false} RemoveMembers(s: seq<Tid>, t: Tid)
    ensures forall u <- Remove(s, t) :: u in s
  {
    if s != [] {
      RemoveMembers(s[1..], t);
    }
  }

  lemma AddToKeeps(s: seq<Tid>, t: Tid, head: bool)
    requires Unique(s) && t !in s
    ensures Unique(AddTo(s, t, head)) && |AddTo(s, t, head)| == |s| + 1
    ensures forall u :: u in AddTo(s, t, head) <==> u in s || u == t
  {
  }

  lemma {:induction false} RemoveShortens(s: seq<Tid>, t: Tid)
    ensures |Remove(s, t)| == |s| - if t in s then 1 else 0
  {
    if s != [] && s[0] != t {
      RemoveShortens(s[1..], t);
    }
  }

  /** Who stands before `t` on a list. */
  function AheadOf(s: seq<Tid>, t: Tid): set<Tid> {
    if s == [] || s[0] == t then {} else {s[0]} + AheadOf(s[1..], t)
  }

  /** A task that joins at the tail is behind everybody, at the head before everybody. */
  lemma {:induction false} AheadAfterAdd(s: seq<Tid>, t: Tid, u: Tid)
    requires t !in s
    ensures u in s ==> AheadOf(s + [t], u) == AheadOf(s, u) && AheadOf([t] + s, u) == AheadOf(s, u) + {t}
    ensures AheadOf(s + [t], t) == (set v | v in s) && AheadOf([t] + s, t) == {}
  {
    assert ([t] + s)[1..] == s;
    if s != [] {
      AheadAfterAdd(s[1..], t, u);
      assert s + [t] == [s[0]] + (s[1..] + [t]);
      assert s == [s[0]] + s[1..];
    }
  }

  /** Taking a task out changes nothing in the order of the others. */
  lemma {:induction false} AheadAfterRemove(s: seq<Tid>, t: Tid, u: Tid)
    requires Unique(s) && t != u && u in s
    ensures AheadOf(Remove(s, t), u) == AheadOf(s, u) - {t} && u in Remove(s, t)
  {
    RemoveKeeps(s, t);
    assert s == [s[0]] + s[1..];
    if s[0] == t {
      assert t !in s[1..];
      AheadMembers(s[1..], u);
    } else if s[0] != u {
      AheadAfterRemove(s[1..], t, u);
      assert Remove(s, t)[1..] == Remove(s[1..], t);
    }
  }

  lemma {:induction false} AheadMembers(s: seq<Tid>, t: Tid)
    ensures forall u <- AheadOf(s, t) :: u in s
  {
    if s != [] && s[0] != t {
      AheadMembers(s[1..], t);
    }
  }

  /** The sets ahead determine the list. */
  lemma {:induction false} AheadDetermines(s: seq<Tid>, s': seq<Tid>)
    requires Unique(s) && Unique(s') && (forall t :: t in s <==> t in s')
    requires forall t <- s :: AheadOf(s, t) == AheadOf(s', t)
    ensures s == s'
  {
    assert s' != [] ==> s'[0] in s;
    if s != [] {
      assert s[0] in s';
      assert AheadOf(s, s[0]) == {};
      var r, r' := s[1..], s'[1..];
      assert s == [s[0]] + r && s' == [s[0]] + r' && s[0] !in r && s[0] !in r';
      forall t <- r ensures AheadOf(r, t) == AheadOf(r', t) {
        assert t in s;
        AheadMembers(r, t);
        AheadMembers(r', t);
        assert AheadOf(s, t) == {s[0]} + AheadOf(r, t) && AheadOf(s', t) == {s[0]} + AheadOf(r', t);
      }
      assert forall t :: t in r <==> t in s && t != s[0];
      assert forall t :: t in r' <==> t in s' && t != s[0];
      AheadDetermines(r, r');
    }
  }
}
