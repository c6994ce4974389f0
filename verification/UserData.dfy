/** What a load makes of the user data a quiddity has: the saved children are grafted over it one by one. */
module UserData {
  import opened InfoTree
  import opened Switcher

  /** The keys that are not among those there were, in order. */
  function Missing(had: seq<string>, keys: seq<string>): seq<string> {
    if keys == [] then []
    else
      var n := |keys| - 1;
      Missing(had, keys[..n]) + if keys[n] in had then [] else [keys[n]]
  }

  /** Each saved child is there as it was saved; every other child and the root value are as they were. The children
      there were keep their places, and new ones follow in the order of the save. */
  ghost predicate Refilled(was: Tree, saved: Tree, now: Tree) {
    && now.data == was.data
    && ChildKeys(now) == ChildKeys(was) + Missing(ChildKeys(was), ChildKeys(saved))
    && forall key :: Sub(now, [key]) == if key in ChildKeys(saved) then Sub(saved, [key]) else Sub(was, [key])
  }

  // ---- Trees by their children

  lemma {:induction false} KeysAreKids(t: Tree, key: string)
    ensures key in ChildKeys(t) <==> IndexOf(t.kids, key) < |t.kids|
  {
    var i := IndexOf(t.kids, key);
    if i < |t.kids| {
      assert ChildKeys(t)[i] == key;
    }
  }

  lemma {:induction false} KidAt(t: Tree, i: nat)
    requires DistinctKeys(t.kids) && i < |t.kids|
    ensures Sub(t, [t.kids[i].0]) == t.kids[i].1
  {
    FoundAt(t.kids, i);
    assert [t.kids[i].0][1..] == [];
  }

  lemma {:induction false} NoKid(t: Tree, key: string)
    requires key !in ChildKeys(t)
    ensures Sub(t, [key]) == EMPTY
  {
    KeysAreKids(t, key);
  }

  lemma {:induction false} SameTree(a: Tree, b: Tree)
    requires a.data == b.data && ChildKeys(a) == ChildKeys(b) && DistinctKeys(a.kids)
    requires forall key :: key in ChildKeys(a) ==> Sub(a, [key]) == Sub(b, [key])
    ensures a == b
  {
    hide Sub;
    assert |ChildKeys(a)| == |a.kids| && |ChildKeys(b)| == |b.kids|;
    forall i | 0 <= i < |a.kids| ensures a.kids[i] == b.kids[i] {
      assert ChildKeys(a)[i] == a.kids[i].0 && ChildKeys(b)[i] == b.kids[i].0;
      forall p, q | 0 <= p < q < |b.kids| ensures b.kids[p].0 != b.kids[q].0 {
        assert ChildKeys(b)[p] == a.kids[p].0 && ChildKeys(b)[q] == a.kids[q].0;
      }
      KidAt(a, i);
      KidAt(b, i);
    }
    assert a.kids == b.kids;
  }

  /** One graft under a key. */
  lemma {:induction false} GraftKey(t: Tree, key: string, leaf: Tree, other: string)
    requires IsKey(key)
    ensures var r := Graft(t, key, leaf);
      && r.data == t.data
      && ChildKeys(r) == (if key in ChildKeys(t) then ChildKeys(t) else ChildKeys(t) + [key])
      && Sub(r, [other]) == if other == key then leaf else Sub(t, [other])
  {
    KeysOfKey(key);
    KeysAreKids(t, key);
    assert [key] + [] == [key] && [key][1..] == [];
    ChildOfPut(t, key, [], leaf, other);
  }

  // ---- Keys

  lemma {:induction false} MissingAre(had: seq<string>, keys: seq<string>, key: string)
    ensures key in Missing(had, keys) <==> key in keys && key !in had
    decreases |keys|
  {
    if keys != [] {
      var n := |keys| - 1;
      MissingAre(had, keys[..n], key);
      assert keys == keys[..n] + [keys[n]];
    }
  }

  ghost predicate Different(keys: seq<string>) {
    forall i, j :: 0 <= i < j < |keys| ==> keys[i] != keys[j]
  }

  lemma {:induction false} MissingIsDifferent(had: seq<string>, keys: seq<string>)
    requires Different(had) && Different(keys)
    ensures Different(had + Missing(had, keys))
    decreases |keys|
  {
    if keys == [] {
      assert had + [] == had;
    } else {
      var n := |keys| - 1;
      MissingIsDifferent(had, keys[..n]);
      MissingAre(had, keys[..n], keys[n]);
      var before, all := had + Missing(had, keys[..n]), had + Missing(had, keys);
      if keys[n] !in had {
        assert all == before + [keys[n]];
        assert keys[n] !in before;
      } else {
        assert all == before;
      }
    }
  }

  /** When the first keys are those there were, the rest is missing. */
  lemma {:induction false} MissingIsRest(had: seq<string>, keys: seq<string>)
    requires had <= keys && Different(keys)
    ensures had + Missing(had, keys) == keys
    decreases |keys|
  {
    if had == keys {
      NoneMissing(had, keys);
    } else {
      var n := |keys| - 1;
      MissingIsRest(had, keys[..n]);
      assert keys[n] !in had;
      assert keys == keys[..n] + [keys[n]];
    }
  }

  lemma {:induction false} NoneMissing(had: seq<string>, keys: seq<string>)
    requires forall key :: key in keys ==> key in had
    ensures Missing(had, keys) == []
    decreases |keys|
  {
    if keys != [] {
      NoneMissing(had, keys[..|keys| - 1]);
    }
  }

  // ---- The loop over the saved children

  lemma {:induction false} GetBelow(t: Tree, nick: string, key: string)
    requires IsKey(nick) && IsKey(key)
    ensures GetTree(t, nick + "." + key) == Sub(Sub(t, [nick]), [key])
    ensures GetTree(t, nick) == Sub(t, [nick])
  {
    KeysOfKey(nick);
    KeysOfKey(key);
    KeysOfPath(nick, key);
    var path := nick + "." + key;
    assert path[0] == nick[0] != '.';
    assert nick[0] != '.';
    assert Keys(path) == [nick, key];
    assert [nick, key][1..] == [key] && [nick][1..] == [];
  }

  function FirstKids(t: Tree, n: nat): Tree
    requires n <= |t.kids|
  {
    Tree(None, t.kids[..n])
  }

  lemma {:induction false} OneMoreKid(t: Tree, n: nat, key: string)
    requires DistinctKeys(t.kids) && n < |t.kids|
    ensures ChildKeys(FirstKids(t, n + 1)) == ChildKeys(FirstKids(t, n)) + [t.kids[n].0]
    ensures t.kids[n].0 !in ChildKeys(FirstKids(t, n))
    ensures Sub(FirstKids(t, n + 1), [key]) == if key == t.kids[n].0 then t.kids[n].1 else Sub(FirstKids(t, n), [key])
  {
    assert t.kids[..n + 1] == t.kids[..n] + [t.kids[n]];
    var before, after := FirstKids(t, n), FirstKids(t, n + 1);
    KidAt(after, n);
    KeysAreKids(before, key);
    KeysAreKids(after, key);
    if key in ChildKeys(before) {
      var i := IndexOf(before.kids, key);
      KidAt(before, i);
      KidAt(after, i);
      assert after.kids[i] == before.kids[i];
    } else if key != t.kids[n].0 {
      NoKid(before, key);
      NoKid(after, key);
    }
  }

  lemma {:induction false} RefillNext(was: Tree, t: Tree, n: nat, before: Tree)
    requires Proper(t) && n < |t.kids| && Refilled(was, FirstKids(t, n), before)
    ensures Refilled(was, FirstKids(t, n + 1), Graft(before, t.kids[n].0, t.kids[n].1))
  {
    hide Sub, Graft, FirstKids;
    var key, leaf, next := t.kids[n].0, t.kids[n].1, Graft(before, t.kids[n].0, t.kids[n].1);
    var had, keys, more := ChildKeys(was), ChildKeys(FirstKids(t, n)), ChildKeys(FirstKids(t, n + 1));
    OneMoreKid(t, n, key);
    MissingAre(had, keys, key);
    assert more[..|more| - 1] == keys;
    forall other
      ensures Sub(next, [other]) == if other in more then Sub(FirstKids(t, n + 1), [other]) else Sub(was, [other])
    {
      OneMoreKid(t, n, other);
      GraftKey(before, key, leaf, other);
    }
    GraftKey(before, key, leaf, key);
    assert ChildKeys(next) == had + Missing(had, more);
  }

  lemma {:induction false} RefillNothing(was: Tree, t: Tree)
    ensures Refilled(was, FirstKids(t, 0), was)
  {
    hide Sub;
    assert ChildKeys(FirstKids(t, 0)) == [];
    assert ChildKeys(was) + [] == ChildKeys(was);
  }

  lemma {:induction false} FillsSome(data: Tree, nick: string, t: Tree, n: nat, was: Tree)
    requires IsKey(nick) && Proper(t) && n <= |t.kids| && Sub(data, [nick]) == t
    ensures Refilled(was, FirstKids(t, n), FillData(data, nick, ChildKeys(t), n, was))
  {
    hide Sub, Graft, GetTree, Refilled, FirstKids;
    if n > 0 {
      FillsSome(data, nick, t, n - 1, was);
      GetBelow(data, nick, t.kids[n - 1].0);
      KidAt(t, n - 1);
      RefillNext(was, t, n - 1, FillData(data, nick, ChildKeys(t), n - 1, was));
    } else {
      RefillNothing(was, t);
    }
  }

  lemma {:induction false} SameButRoot(was: Tree, t: Tree, now: Tree)
    requires Refilled(was, FirstKids(t, |t.kids|), now)
    ensures Refilled(was, t, now)
  {
    assert t.kids[..|t.kids|] == t.kids;
    assert ChildKeys(FirstKids(t, |t.kids|)) == ChildKeys(t);
    forall key ensures Sub(FirstKids(t, |t.kids|), [key]) == Sub(t, [key]) {
    }
  }

  /** Whatever user data a quiddity has and whatever a tree saves for it, the load replaces exactly the children that
      are saved. */
  lemma {:induction false} LoadRefills(data: Tree, key: string, q: Quid)
    requires IsKey(key) && Proper(Sub(data, [key]))
    ensures var r := Apply(Filling(data), key, q);
      r == q.(userData := r.userData) && Refilled(q.userData, Sub(data, [key]), r.userData)
  {
    hide Sub, GetTree, Refilled, FillData;
    var t := Sub(data, [key]);
    GetKey(data, key);
    FillsSome(data, key, t, |t.kids|, q.userData);
    SameButRoot(q.userData, t, FillData(data, key, ChildKeys(t), |t.kids|, q.userData));
  }

  lemma {:induction false} GetKey(t: Tree, key: string)
    requires IsKey(key)
    ensures GetTree(t, key) == Sub(t, [key])
  {
    hide Sub;
    KeysOfKey(key);
  }

  // ---- When the user data is back

  lemma {:induction false} RefilledIsProper(was: Tree, saved: Tree, now: Tree)
    requires Refilled(was, saved, now) && Proper(was) && Proper(saved)
    ensures Proper(now)
  {
    hide Sub, IsKey;
    var had, keys := ChildKeys(was), ChildKeys(saved);
    MissingIsDifferent(had, keys);
    forall i | 0 <= i < |now.kids| ensures now.kids[i].0 == ChildKeys(now)[i] && IsKey(now.kids[i].0) {
      var key := ChildKeys(now)[i];
      MissingAre(had, keys, key);
      assert key in had + Missing(had, keys);
      assert key in had || key in keys;
    }
  }

  /** The value at the root is what was saved, and the children, in order, are the first of those saved. */
  predicate CanReturn(was: Tree, saved: Tree) {
    was.data == saved.data && ChildKeys(was) <= ChildKeys(saved)
  }

  lemma {:induction false} RefilledIff(was: Tree, saved: Tree, now: Tree)
    requires Refilled(was, saved, now) && Proper(was) && Proper(saved)
    ensures now == saved <==> CanReturn(was, saved)
  {
    hide Sub;
    if CanReturn(was, saved) {
      MissingIsRest(ChildKeys(was), ChildKeys(saved));
      RefilledIsProper(was, saved, now);
      SameTree(now, saved);
    }
  }

  lemma {:induction false} RefilledByNothing(was: Tree)
    ensures Refilled(was, EMPTY, was)
  {
    hide Sub;
    assert ChildKeys(EMPTY) == [];
    assert ChildKeys(was) + [] == ChildKeys(was);
  }
}
