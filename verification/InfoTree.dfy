/** The information tree (switcher/infotree/information-tree.cpp): a value, and children in the order they were
    grafted. A path is a string of keys with dots between them. */
module InfoTree {

  datatype Option<+T> = None | Some(value: T)

  /** A datum that prints as itself, or a boolean. */
  datatype Val = Bool(b: bool) | Text(text: string)

  datatype Tree = Tree(data: Option<Val>, kids: seq<(string, Tree)>)
  {
    predicate IsEmpty() { data == None && kids == [] }
  }

  const EMPTY := Tree(None, [])

  function Leaf(v: Val): Tree { Tree(Some(v), []) }

  // ---- Paths

  predicate DotFree(s: string) { '.' !in s }

  predicate IsKey(s: string) { DotFree(s) && s != "" }

  function FirstDot(s: string): (n: nat)
    ensures n <= |s| && DotFree(s[..n])
    ensures n < |s| ==> s[n] == '.'
  {
    if s == "" || s[0] == '.' then 0 else 1 + FirstDot(s[1..])
  }

  /** The keys of a path; consecutive dots count as one. */
  function Keys(path: string): seq<string>
    decreases |path|
  {
    if path == "" then [] else
    var n := FirstDot(path);
    var rest := if n < |path| then path[n + 1..] else "";
    if n == 0 then Keys(rest) else [path[..n]] + Keys(rest)
  }

  lemma {:induction false} FirstDotOf(key: string, rest: string)
    requires DotFree(key)
    ensures FirstDot(key + "." + rest) == |key| && FirstDot(key) == |key|
    decreases |key|
  {
    if key == "" {
      assert (key + "." + rest)[0] == '.';
    } else {
      assert (key + "." + rest)[1..] == key[1..] + "." + rest;
      FirstDotOf(key[1..], rest);
    }
  }

  lemma {:induction false} KeysOfKey(key: string)
    requires IsKey(key)
    ensures Keys(key) == [key] && Keys("." + key) == [key]
  {
    FirstDotOf(key, "");
    assert key[..|key|] == key;
    assert ("." + key)[1..] == key;
  }

  lemma {:induction false} KeysOfPath(key: string, rest: string)
    requires IsKey(key)
    ensures Keys(key + "." + rest) == [key] + Keys(rest)
    ensures Keys("." + key + "." + rest) == [key] + Keys(rest)
  {
    var path := key + "." + rest;
    FirstDotOf(key, rest);
    assert path[..|key|] == key && path[|key| + 1..] == rest;
    assert ("." + key + "." + rest)[1..] == path;
  }

  /** A dot joins the keys of two paths, whatever other dots they have. */
  lemma {:induction false} KeysOfJoin(a: string, b: string)
    ensures Keys(a + "." + b) == Keys(a) + Keys(b)
    decreases |a|
  {
    var path, n := a + "." + b, FirstDot(a);
    if n == |a| {
      FirstDotOf(a, b);
      assert path[..n] == a && path[n + 1..] == b && a[..n] == a;
    } else {
      assert a == a[..n] + "." + a[n + 1..];
      assert path == a[..n] + "." + (a[n + 1..] + "." + b);
      FirstDotOf(a[..n], a[n + 1..] + "." + b);
      assert path[..n] == a[..n] && path[n + 1..] == a[n + 1..] + "." + b;
      KeysOfJoin(a[n + 1..], b);
    }
  }

  // ---- Children

  /** The position of a child, |kids| when there is none. */
  function IndexOf(kids: seq<(string, Tree)>, key: string): (i: nat)
    ensures i <= |kids|
    ensures i < |kids| ==> kids[i].0 == key
    ensures forall j :: 0 <= j < i ==> kids[j].0 != key
  {
    if kids == [] || kids[0].0 == key then 0 else 1 + IndexOf(kids[1..], key)
  }

  function ChildKeys(t: Tree): seq<string> {
    seq(|t.kids|, i requires 0 <= i < |t.kids| => t.kids[i].0)
  }

  /** The subtree at some keys, an empty tree when there is none. */
  function Sub(t: Tree, keys: seq<string>): Tree
    decreases |keys|
  {
    if keys == [] then t else
    var i := IndexOf(t.kids, keys[0]);
    if i == |t.kids| then EMPTY else Sub(t.kids[i].1, keys[1..])
  }

  function GetTree(t: Tree, path: string): Tree {
    if path == "." || path == ".." then t
    else if Keys(path) == [] then EMPTY
    else Sub(t, Keys(path))
  }

  function GetValue(t: Tree, path: string): Option<Val> { GetTree(t, path).data }

  /** Puts a leaf at some keys: the last child is replaced, the missing ones are made. */
  function Put(t: Tree, keys: seq<string>, leaf: Tree): Tree
    decreases |keys|
  {
    if keys == [] then leaf else
    var i := IndexOf(t.kids, keys[0]);
    if i == |t.kids| then t.(kids := t.kids + [(keys[0], Put(EMPTY, keys[1..], leaf))])
    else t.(kids := t.kids[i := (keys[0], Put(t.kids[i].1, keys[1..], leaf))])
  }

  /** Grafting at a path without a key changes nothing. */
  function Graft(t: Tree, path: string, leaf: Tree): Tree {
    if Keys(path) == [] then t else Put(t, Keys(path), leaf)
  }

  lemma {:induction false} IndexAfterPut(t: Tree, key: string, kid: Tree, other: string)
    ensures var i, after := IndexOf(t.kids, key), Put(t, [key], kid).kids;
      && IndexOf(after, key) == i < |after|
      && (other != key ==>
        (IndexOf(after, other) == IndexOf(t.kids, other) < |t.kids|
        || (IndexOf(after, other) == |after| && IndexOf(t.kids, other) == |t.kids|)))
  {
    var i, j, after := IndexOf(t.kids, key), IndexOf(t.kids, other), Put(t, [key], kid).kids;
    assert after[i].0 == key;
    if other != key && j < |t.kids| {
      assert after[j] == t.kids[j];
    }
  }

  /** What is put is found again. */
  lemma {:induction false} SubOfPut(t: Tree, keys: seq<string>, leaf: Tree)
    ensures Sub(Put(t, keys, leaf), keys) == leaf
    decreases |keys|
  {
    if keys != [] {
      var i := IndexOf(t.kids, keys[0]);
      var below := if i == |t.kids| then EMPTY else t.kids[i].1;
      SubOfPut(below, keys[1..], leaf);
      assert Put(t, keys, leaf) == Put(t, [keys[0]], Put(below, keys[1..], leaf));
      IndexAfterPut(t, keys[0], Put(below, keys[1..], leaf), keys[0]);
    }
  }

  /** Putting something below a child changes that child only. */
  lemma {:induction false} ChildOfPut(t: Tree, key: string, rest: seq<string>, leaf: Tree, other: string)
    ensures Sub(Put(t, [key] + rest, leaf), [other]) ==
      if other == key then Put(Sub(t, [key]), rest, leaf) else Sub(t, [other])
    ensures Put(t, [key] + rest, leaf).data == t.data
  {
    var keys := [key] + rest;
    assert keys[0] == key && keys[1..] == rest;
    var i := IndexOf(t.kids, key);
    var below := if i == |t.kids| then EMPTY else t.kids[i].1;
    assert Put(t, keys, leaf) == Put(t, [key], Put(below, rest, leaf));
    assert Sub(t, [key]) == below;
    IndexAfterPut(t, key, Put(below, rest, leaf), other);
  }

  // ---- Lists of children

  ghost predicate DistinctKeys(kids: seq<(string, Tree)>) {
    forall i, j :: 0 <= i < j < |kids| ==> kids[i].0 != kids[j].0
  }

  /** The keys are different and can be written in a path. */
  ghost predicate Proper(t: Tree) {
    DistinctKeys(t.kids) && forall i :: 0 <= i < |t.kids| ==> IsKey(t.kids[i].0)
  }

  /** Every tree made by grafting is proper. */
  lemma {:induction false} GraftIsProper(t: Tree, path: string, leaf: Tree)
    requires Proper(t)
    ensures Proper(Graft(t, path, leaf))
  {
    KeysAreKeys(path);
    if Keys(path) != [] {
      var key := Keys(path)[0];
      assert key in Keys(path);
    }
  }

  lemma {:induction false} KeysAreKeys(path: string)
    ensures forall key :: key in Keys(path) ==> IsKey(key)
    decreases |path|
  {
    if path != "" {
      var n := FirstDot(path);
      KeysAreKeys(if n < |path| then path[n + 1..] else "");
    }
  }

  lemma {:induction false} FoundAt(kids: seq<(string, Tree)>, i: nat)
    requires DistinctKeys(kids) && i < |kids|
    ensures IndexOf(kids, kids[i].0) == i
  {
  }

  /** A new key comes last. */
  lemma {:induction false} PutNew(t: Tree, key: string, leaf: Tree)
    requires IndexOf(t.kids, key) == |t.kids|
    ensures Put(t, [key], leaf) == t.(kids := t.kids + [(key, leaf)])
  {
    assert [key][1..] == [];
  }
}
