/** Saving, resetting and loading gives back what was saved. */
module RoundTrip {
  import opened InfoTree
  import opened Switcher
  import opened SavedTree
  import opened UserData

  // ---- States that can be saved

  /** The same properties, with values of the same types. */
  ghost predicate SameShape(p: seq<Prop>, b: seq<Prop>) {
    |p| == |b| && forall i :: 0 <= i < |p| ==>
      && b[i].name == p[i].name && b[i].writable == p[i].writable && b[i].saved == p[i].saved
      && b[i].value.Bool? == p[i].value.Bool?
  }

  ghost predicate GoodProps(props: seq<Prop>) {
    && (forall i :: 0 <= i < |props| ==> IsKey(props[i].name))
    && (forall i, j :: 0 <= i < j < |props| ==> props[i].name != props[j].name)
  }

  ghost predicate GoodQuid(kinds: Kinds, s: State, q: Quid) {
    && IsKey(q.nick) && GoodProps(q.props) && Proper(q.userData) && q.id <= s.lastId
    && (q.id !in s.atReset ==> q.kind in kinds && SameShape(kinds[q.kind].props, q.props))
  }

  /** Nicknames are different keys; what was there at the reset comes first; the others have the properties of
      their kinds. */
  ghost predicate Valid(kinds: Kinds, s: State) {
    && (forall i :: 0 <= i < |s.quids| ==> GoodQuid(kinds, s, s.quids[i]))
    && (forall i, j :: 0 <= i < j < |s.quids| ==> s.quids[i].nick != s.quids[j].nick)
    && (forall i, j :: 0 <= i < j < |s.quids| && s.quids[i].id !in s.atReset ==> s.quids[j].id !in s.atReset)
    && (forall id :: id in s.atReset ==> id <= s.lastId)
  }

  // ---- Properties

  ghost predicate DistinctNames(props: seq<(string, Val)>) {
    forall i, j :: 0 <= i < j < |props| ==> props[i].0 != props[j].0
  }

  ghost predicate SavedFrom(e: (string, Val), props: seq<Prop>) {
    exists i :: 0 <= i < |props| && props[i].writable && props[i].saved && e == (props[i].name, props[i].value)
  }

  lemma {:induction false} SavedPropsAre(props: seq<Prop>)
    requires GoodProps(props)
    ensures forall i :: 0 <= i < |props| && props[i].writable && props[i].saved ==>
      (props[i].name, props[i].value) in SavedProps(props)
    ensures forall e :: e in SavedProps(props) ==> SavedFrom(e, props)
    ensures DistinctNames(SavedProps(props))
    decreases |props|
  {
    if props != [] {
      var n := |props| - 1;
      var before, saved := SavedProps(props[..n]), SavedProps(props);
      SavedPropsAre(props[..n]);
      forall e | e in saved ensures SavedFrom(e, props) && (e in before ==> e.0 != props[n].name) {
        if e in before {
          assert SavedFrom(e, props[..n]);
          var i :| 0 <= i < n && props[i].writable && props[i].saved && e == (props[i].name, props[i].value);
          assert SavedFrom(e, props);
        } else {
          assert e == (props[n].name, props[n].value);
        }
      }
      forall i, j | 0 <= i < j < |saved| ensures saved[i].0 != saved[j].0 {
        assert saved[i] == before[i] && before[i] in before;
      }
    }
  }

  lemma {:induction false} FactsAreGood(q: Quid, atReset: seq<nat>)
    requires IsKey(q.nick) && GoodProps(q.props)
    ensures GoodNames(FactsOf(q, atReset))
  {
    SavedPropsAre(q.props);
    var saved := SavedProps(q.props);
    forall k | 0 <= k < |saved| ensures IsKey(saved[k].0) {
      assert saved[k] in saved;
      assert SavedFrom(saved[k], q.props);
    }
    assert DistinctNames(saved);
  }

  lemma {:induction false} AllFactsAreGood(kinds: Kinds, s: State)
    requires Valid(kinds, s)
    ensures Good(AllFacts(s))
  {
    forall i | 0 <= i < |s.quids| ensures GoodNames(AllFacts(s)[i]) {
      assert GoodQuid(kinds, s, s.quids[i]);
      FactsAreGood(s.quids[i], s.atReset);
    }
  }

  lemma {:induction false} SameSaved(p: seq<Prop>, b: seq<Prop>)
    requires SameShape(p, b)
    requires forall i :: 0 <= i < |p| && p[i].writable && p[i].saved ==> b[i].value == p[i].value
    ensures SavedProps(b) == SavedProps(p)
    decreases |p|
  {
    if p != [] {
      SameSaved(p[..|p| - 1], b[..|p| - 1]);
    }
  }

  lemma {:induction false} IndexOfProp(props: seq<Prop>, j: nat)
    requires GoodProps(props) && j < |props|
    ensures PropIndex(props, props[j].name) == j
  {
  }

  /** A value survives being printed and read as its type. */
  lemma {:induction false} ParsesBack(v: Val, like: Val)
    requires v.Bool? == like.Bool?
    ensures Parse(like, ToText(Some(v))) == Some(v)
  {
  }

  ghost predicate SetSoFar(p: seq<Prop>, b: seq<Prop>, names: seq<string>, n: nat, put: bool, r: seq<Prop>)
    requires |p| == |b| == |r| && n <= |names|
  {
    forall i :: 0 <= i < |p| ==>
      r[i] == if p[i].name in names[..n] && !(put && p[i].name == "started") then p[i] else b[i]
  }

  lemma {:induction false} SetOne(p: seq<Prop>, q: Quid, i: nat)
    requires GoodProps(p) && SameShape(p, q.props) && i < |p| && p[i].writable
    ensures SetProp(q, p[i].name, ToText(Some(p[i].value))) == q.(props := q.props[i := p[i]])
  {
    IndexOfProp(q.props, i);
    ParsesBack(p[i].value, q.props[i].value);
  }

  /** A property that the tree has the value of. */
  ghost predicate Known(properties: Tree, nick: string, p: seq<Prop>, name: string) {
    exists i :: 0 <= i < |p| && p[i].name == name && p[i].writable && KnownAt(properties, nick, p, i)
  }

  predicate KnownAt(properties: Tree, nick: string, p: seq<Prop>, i: nat)
    requires i < |p|
  {
    GetValue(properties, nick + "." + p[i].name) == Some(p[i].value)
  }

  /** Setting the saved properties brings back their values, but for a start that is put off. */
  lemma {:induction false} SetPropsRestores(properties: Tree, p: seq<Prop>, q: Quid, names: seq<string>, n: nat)
    requires GoodProps(p) && SameShape(p, q.props) && n <= |names|
    requires forall k :: 0 <= k < |names| ==> Known(properties, q.nick, p, names[k])
    ensures var r := SetProps(properties, q.nick, names, n, q);
      && r == q.(props := r.props) && SameShape(p, r.props)
      && SetSoFar(p, q.props, names, n, Deferred(properties, q.nick, "started"), r.props)
  {
    hide GetValue, SetProp, SetSoFar, ToText;
    if n > 0 {
      var before := SetProps(properties, q.nick, names, n - 1, q);
      SetPropsRestores(properties, p, q, names, n - 1);
      var name := names[n - 1];
      var i :| 0 <= i < |p| && p[i].name == name && p[i].writable && KnownAt(properties, q.nick, p, i);
      SetOne(p, before, i);
      DeferredIs(properties, q.nick, name);
      OneMoreSet(p, q.props, names, n, Deferred(properties, q.nick, "started"), before.props, i);
    } else {
      NoneSet(p, q.props, names, Deferred(properties, q.nick, "started"));
    }
  }

  lemma {:induction false} NoneSet(p: seq<Prop>, b: seq<Prop>, names: seq<string>, put: bool)
    requires |p| == |b|
    ensures SetSoFar(p, b, names, 0, put, b)
  {
  }

  lemma {:induction false} OneMoreSet(p: seq<Prop>, b: seq<Prop>, names: seq<string>, n: nat, put: bool,
      before: seq<Prop>, i: nat)
    requires GoodProps(p) && |p| == |b| == |before| && 0 < n <= |names|
    requires i < |p| && p[i].name == names[n - 1]
    requires SetSoFar(p, b, names, n - 1, put, before)
    ensures SetSoFar(p, b, names, n, put, if put && p[i].name == "started" then before else before[i := p[i]])
  {
    assert names[..n] == names[..n - 1] + [names[n - 1]];
  }

  lemma {:induction false} DeferredIs(properties: Tree, nick: string, name: string)
    ensures Deferred(properties, nick, name) <==> name == "started" && Deferred(properties, nick, "started")
  {
  }

  // ---- Phases work on each quiddity by itself

  function Step(ph: Phase, keys: seq<string>, q: Quid): Quid {
    if q.nick in keys then Apply(ph, q.nick, q) else q
  }

  ghost predicate DistinctNicks(quids: seq<Quid>) {
    forall i, j :: 0 <= i < j < |quids| ==> quids[i].nick != quids[j].nick
  }

  ghost predicate DistinctStrings(keys: seq<string>) {
    forall i, j :: 0 <= i < j < |keys| ==> keys[i] != keys[j]
  }

  lemma {:induction false} InOneMore(keys: seq<string>, n: nat, key: string)
    requires 0 < n <= |keys| && DistinctStrings(keys)
    ensures key in keys[..n] <==> key in keys[..n - 1] || key == keys[n - 1]
    ensures keys[n - 1] !in keys[..n - 1]
  {
    assert keys[..n] == keys[..n - 1] + [keys[n - 1]];
  }

  ghost predicate SteppedBy(ph: Phase, keys: seq<string>, n: nat, quids: seq<Quid>, r: seq<Quid>)
    requires n <= |keys|
  {
    |r| == |quids| && forall i :: 0 <= i < |quids| ==> r[i] == Step(ph, keys[..n], quids[i])
  }

  /** A phase works on each quiddity that a key names, as if there were no other. */
  lemma {:induction false} Pointwise(ph: Phase, keys: seq<string>, n: nat, quids: seq<Quid>)
    requires n <= |keys| && DistinctStrings(keys) && DistinctNicks(quids)
    requires forall i :: 0 <= i < |quids| && quids[i].nick in keys ==>
      Apply(ph, quids[i].nick, quids[i]).nick == quids[i].nick
    ensures SteppedBy(ph, keys, n, quids, ApplyAll(ph, keys, n, quids))
  {
    hide Apply, ApplyOne, Step;
    if n > 0 {
      Pointwise(ph, keys, n - 1, quids);
      var before := ApplyAll(ph, keys, n - 1, quids);
      SteppedKeepsNicks(ph, keys, n - 1, quids, before);
      OneMoreStep(ph, keys, n, quids, before);
    } else {
      NoStep(ph, keys, quids);
    }
  }

  lemma {:induction false} NoStep(ph: Phase, keys: seq<string>, quids: seq<Quid>)
    ensures SteppedBy(ph, keys, 0, quids, quids)
  {
    hide Apply;
  }

  lemma {:induction false} SteppedKeepsNicks(ph: Phase, keys: seq<string>, n: nat, quids: seq<Quid>, r: seq<Quid>)
    requires n <= |keys| && SteppedBy(ph, keys, n, quids, r)
    requires forall i :: 0 <= i < |quids| && quids[i].nick in keys ==>
      Apply(ph, quids[i].nick, quids[i]).nick == quids[i].nick
    ensures forall i :: 0 <= i < |quids| ==> r[i].nick == quids[i].nick
  {
    hide Apply;
    forall i | 0 <= i < |quids| ensures r[i].nick == quids[i].nick {
      if quids[i].nick in keys[..n] {
        assert quids[i].nick in keys;
      }
    }
  }

  lemma {:induction false} OneMoreStep(ph: Phase, keys: seq<string>, n: nat, quids: seq<Quid>, before: seq<Quid>)
    requires 0 < n <= |keys| && DistinctStrings(keys) && DistinctNicks(quids)
    requires SteppedBy(ph, keys, n - 1, quids, before)
    requires forall i :: 0 <= i < |quids| ==> before[i].nick == quids[i].nick
    ensures SteppedBy(ph, keys, n, quids, ApplyOne(ph, keys[n - 1], before))
  {
    hide Apply;
    var key, at, r := keys[n - 1], Find(before, keys[n - 1]), ApplyOne(ph, keys[n - 1], before);
    forall i | 0 <= i < |quids| ensures r[i] == Step(ph, keys[..n], quids[i]) {
      InOneMore(keys, n, quids[i].nick);
      assert before[i] == Step(ph, keys[..n - 1], quids[i]);
      if i == at {
        assert quids[i].nick == key;
      } else if at < |quids| {
        assert quids[at].nick == key;
      }
    }
  }

  // ---- What is to be started

  predicate WillStart(properties: Tree, nick: string) {
    "started" in ChildKeys(GetTree(properties, nick)) && Deferred(properties, nick, "started")
  }

  /** Of the first n keys, those that are to be started, in order. */
  function Willing(properties: Tree, n: nat): (r: seq<string>)
    requires n <= |properties.kids|
  {
    if n == 0 then []
    else
      var nick := ChildKeys(properties)[n - 1];
      Willing(properties, n - 1) + if WillStart(properties, nick) then [nick] else []
  }

  lemma {:induction false} StartsOnce(properties: Tree, nick: string, props: seq<string>, n: nat)
    requires n <= |props| && DistinctStrings(props)
    ensures ToStartOf(properties, nick, props, n) ==
      if "started" in props[..n] && Deferred(properties, nick, "started") then [nick] else []
  {
    hide GetValue;
    if n > 0 {
      StartsOnce(properties, nick, props, n - 1);
      assert props[..n] == props[..n - 1] + [props[n - 1]];
      DeferredIs(properties, nick, props[n - 1]);
    }
  }

  /** Each start is put off once, in the order of the tree. */
  lemma {:induction false} StartsInOrder(properties: Tree, n: nat)
    requires n <= |properties.kids|
    requires forall nick :: nick in ChildKeys(properties) ==> DistinctStrings(ChildKeys(GetTree(properties, nick)))
    ensures ToStart(properties, n) == Willing(properties, n)
  {
    hide GetTree, Deferred, ToStartOf, WillStart;
    if n > 0 {
      StartsInOrder(properties, n - 1);
      OneStart(properties, ChildKeys(properties)[n - 1]);
    }
  }

  lemma {:induction false} OneStart(properties: Tree, nick: string)
    requires DistinctStrings(ChildKeys(GetTree(properties, nick)))
    ensures var props := ChildKeys(GetTree(properties, nick));
      ToStartOf(properties, nick, props, |props|) == if WillStart(properties, nick) then [nick] else []
  {
    hide GetTree, Deferred, ToStartOf;
    var props := ChildKeys(GetTree(properties, nick));
    StartsOnce(properties, nick, props, |props|);
    assert props[..|props|] == props;
  }

  lemma {:induction false} WillingAre(properties: Tree, n: nat)
    requires n <= |properties.kids| && DistinctStrings(ChildKeys(properties))
    ensures DistinctStrings(Willing(properties, n))
    ensures forall nick :: nick in Willing(properties, n) <==>
      nick in ChildKeys(properties)[..n] && WillStart(properties, nick)
  {
    hide WillStart;
    if n > 0 {
      WillingAre(properties, n - 1);
      var keys := ChildKeys(properties);
      assert keys[..n] == keys[..n - 1] + [keys[n - 1]];
      assert keys[n - 1] !in keys[..n - 1];
    }
  }

  // ---- A phase over what was saved

  lemma {:induction false} KeysAreDistinct(p: Part, fs: seq<Facts>)
    requires Good(fs)
    ensures DistinctStrings(ChildKeys(Tree(None, Entries(p, fs))))
  {
    EntriesAreProper(p, fs);
  }

  lemma {:induction false} PropsOf(fs: seq<Facts>, i: nat)
    requires Good(fs) && i < |fs|
    ensures var props := GetTree(Tree(None, Entries(PropPart, fs)), fs[i].nick);
      props == Tree(None, PropKids(fs[i].props)) && DistinctStrings(ChildKeys(props))
  {
    hide Entries, Sub, EntryList, SavedProps;
    EntryAt(PropPart, fs, i);
    GetOfKey(Tree(None, Entries(PropPart, fs)), fs[i].nick);
    PropKeys(fs[i]);
  }

  lemma {:induction false} GetOfKey(t: Tree, key: string)
    requires IsKey(key)
    ensures GetTree(t, key) == Sub(t, [key])
  {
    hide Sub;
    KeysOfKey(key);
  }

  lemma {:induction false} PropKeys(f: Facts)
    requires GoodNames(f)
    ensures OrEmpty(Entry(PropPart, f)) == Tree(None, PropKids(f.props))
    ensures DistinctStrings(ChildKeys(Tree(None, PropKids(f.props))))
  {
    assert f.props == [] ==> PropKids(f.props) == [];
  }

  lemma {:induction false} KeyOfSomeone(p: Part, fs: seq<Facts>, key: string) returns (i: nat)
    requires key in ChildKeys(Tree(None, Entries(p, fs)))
    ensures i < |fs| && fs[i].nick == key && Entry(p, fs[i]).Some?
  {
    var kids := Entries(p, fs);
    var k :| 0 <= k < |kids| && ChildKeys(Tree(None, kids))[k] == key;
    i := KeysOfEntries(p, fs, k);
  }

  lemma {:induction false} StartKeys(fs: seq<Facts>)
    requires Good(fs)
    ensures var properties := Tree(None, Entries(PropPart, fs));
      && ToStart(properties, |properties.kids|) == Willing(properties, |properties.kids|)
      && DistinctStrings(ToStart(properties, |properties.kids|))
  {
    var properties := Tree(None, Entries(PropPart, fs));
    KeysAreDistinct(PropPart, fs);
    forall nick | nick in ChildKeys(properties) ensures DistinctStrings(ChildKeys(GetTree(properties, nick))) {
      var i := KeyOfSomeone(PropPart, fs, nick);
      PropsOf(fs, i);
    }
    StartsInOrder(properties, |properties.kids|);
    WillingAre(properties, |properties.kids|);
  }

  lemma {:induction false} KeysAtAreDistinct(fs: seq<Facts>, k: nat)
    requires Good(fs)
    ensures DistinctStrings(KeysAt(SaveAll(fs), k))
  {
    hide GetTree, Entries, ToStart, SaveAll;
    Sections(fs);
    if k == 1 {
      KeysAreDistinct(NickPart, fs);
    } else if k == 2 {
      KeysAreDistinct(PropPart, fs);
    } else if k == 3 {
      KeysAreDistinct(DataPart, fs);
    } else if k == 4 {
      StartKeys(fs);
    } else {
      KeysAreDistinct(KindPart, fs);
    }
  }

  lemma {:induction false} NickIsRead(fs: seq<Facts>, nick: string)
    requires Good(fs)
    ensures var nicknames := Tree(None, Entries(NickPart, fs));
      nick in ChildKeys(nicknames) ==> GetValue(nicknames, nick) == Some(Text(nick))
  {
    if nick in ChildKeys(Tree(None, Entries(NickPart, fs))) {
      var i := KeyOfSomeone(NickPart, fs, nick);
      EntryAt(NickPart, fs, i);
      KeysOfKey(nick);
    }
  }

  /** No phase changes a nickname. */
  lemma {:induction false} PhaseKeepsNick(fs: seq<Facts>, k: nat, q: Quid)
    requires Good(fs) && q.nick in KeysAt(SaveAll(fs), k)
    ensures Apply(PhaseAt(SaveAll(fs), k), q.nick, q).nick == q.nick
  {
    hide GetTree, Entries, ToStart, SaveAll, GetValue;
    Sections(fs);
    if k == 1 {
      NickIsRead(fs, q.nick);
    } else if k == 2 {
      var properties := GetTree(SaveAll(fs), ".properties");
      var props := ChildKeys(GetTree(properties, q.nick));
      KeepsNicks(properties, q.nick, props, |props|, q);
    }
  }

  /** What the first k phases do to one quiddity. */
  function Chain(t: Tree, q: Quid, k: nat): Quid {
    if k == 0 then q else Step(PhaseAt(t, k - 1), KeysAt(t, k - 1), Chain(t, q, k - 1))
  }

  lemma {:induction false} EachByItself(fs: seq<Facts>, quids: seq<Quid>, k: nat)
    requires Good(fs) && DistinctNicks(quids)
    ensures var r := After(SaveAll(fs), quids, k);
      |r| == |quids| && forall i :: 0 <= i < |quids| ==>
        r[i] == Chain(SaveAll(fs), quids[i], k) && r[i].nick == quids[i].nick
  {
    hide SaveAll, PhaseAt, KeysAt, Apply;
    if k > 0 {
      EachByItself(fs, quids, k - 1);
      var t := SaveAll(fs);
      var before, ph, keys := After(t, quids, k - 1), PhaseAt(t, k - 1), KeysAt(t, k - 1);
      KeysAtAreDistinct(fs, k - 1);
      forall i | 0 <= i < |before| && before[i].nick in keys
        ensures Apply(ph, before[i].nick, before[i]).nick == before[i].nick
      {
        PhaseKeepsNick(fs, k - 1, before[i]);
      }
      Pointwise(ph, keys, |keys|, before);
      assert keys[..|keys|] == keys;
    }
  }

  // ---- What the phases do to one saved quiddity

  lemma {:induction false} OnLoadingEffect(fs: seq<Facts>, i: nat, q: Quid)
    requires Good(fs) && i < |fs| && q.nick == fs[i].nick
    ensures Step(PhaseAt(SaveAll(fs), 0), KeysAt(SaveAll(fs), 0), q) ==
      if fs[i].kind == None || fs[i].custom.IsEmpty() then q else q.(custom := fs[i].custom)
  {
    hide Entries, SaveAll, Sub, GetTree;
    var customs := Tree(None, Entries(CustomPart, fs));
    Sections(fs);
    KeyIff(KindPart, fs, i);
    EntryAt(CustomPart, fs, i);
    GetOfKey(customs, q.nick);
    if customs.IsEmpty() {
      assert Entry(CustomPart, fs[i]) == None;
    }
  }

  lemma {:induction false} NamingEffect(fs: seq<Facts>, q: Quid)
    requires Good(fs)
    ensures Step(PhaseAt(SaveAll(fs), 1), KeysAt(SaveAll(fs), 1), q) == q
  {
    hide Entries, SaveAll, GetTree, GetValue;
    Sections(fs);
    NickIsRead(fs, q.nick);
  }

  /** The section of the properties of a quiddity, and the values in it. */
  lemma {:induction false} ValuesOf(fs: seq<Facts>, i: nat, k: nat)
    requires Good(fs) && i < |fs| && k < |fs[i].props|
    ensures GetValue(Tree(None, Entries(PropPart, fs)), fs[i].nick + "." + fs[i].props[k].0) == Some(fs[i].props[k].1)
  {
    hide Entries, Entry, Sub;
    var properties, f := Tree(None, Entries(PropPart, fs)), fs[i];
    EntryAt(PropPart, fs, i);
    PropKeys(f);
    GetBelow(properties, f.nick, f.props[k].0);
    var kids := PropKids(f.props);
    FoundKid(Tree(None, kids), k);
  }

  lemma {:induction false} FoundKid(t: Tree, k: nat)
    requires DistinctKeys(t.kids) && k < |t.kids|
    ensures Sub(t, [t.kids[k].0]) == t.kids[k].1
  {
    FoundAt(t.kids, k);
    assert [t.kids[k].0][1..] == [];
  }

  lemma {:induction false} SavedIsKnown(fs: seq<Facts>, i: nat, p: seq<Prop>)
    requires Good(fs) && i < |fs| && GoodProps(p) && fs[i].props == SavedProps(p)
    ensures forall k :: 0 <= k < |fs[i].props| ==>
      Known(Tree(None, Entries(PropPart, fs)), fs[i].nick, p, fs[i].props[k].0)
  {
    hide Entries, GetValue;
    SavedPropsAre(p);
    forall k | 0 <= k < |fs[i].props|
      ensures Known(Tree(None, Entries(PropPart, fs)), fs[i].nick, p, fs[i].props[k].0)
    {
      ValuesOf(fs, i, k);
      assert fs[i].props[k] in SavedProps(p);
      assert SavedFrom(fs[i].props[k], p);
    }
  }

  /** A saved property is in the tree; a true start is put off. */
  lemma {:induction false} DeferredIff(fs: seq<Facts>, i: nat, p: seq<Prop>, j: nat)
    requires Good(fs) && i < |fs| && GoodProps(p) && fs[i].props == SavedProps(p)
    requires j < |p| && p[j].writable && p[j].saved && p[j].name == "started"
    ensures Deferred(Tree(None, Entries(PropPart, fs)), fs[i].nick, "started") <==> p[j].value == Bool(true)
    ensures "started" in ChildKeys(GetTree(Tree(None, Entries(PropPart, fs)), fs[i].nick))
  {
    hide Entries, GetValue, GetTree, SavedProps;
    SavedPropsAre(p);
    var k :| 0 <= k < |fs[i].props| && fs[i].props[k] == (p[j].name, p[j].value);
    ValuesOf(fs, i, k);
    assert fs[i].nick + ".started" == fs[i].nick + "." + fs[i].props[k].0;
    PropsOf(fs, i);
    assert ChildKeys(Tree(None, PropKids(fs[i].props)))[k] == "started";
  }

  ghost predicate Restored(p: seq<Prop>, r: seq<Prop>, butStart: bool)
    requires SameShape(p, r)
  {
    forall j :: 0 <= j < |p| && p[j].writable && p[j].saved && !(butStart && p[j].name == "started") ==>
      r[j].value == p[j].value
  }

  lemma {:induction false} SettingEffect(fs: seq<Facts>, i: nat, p: seq<Prop>, q: Quid)
    requires Good(fs) && i < |fs| && q.nick == fs[i].nick
    requires GoodProps(p) && SameShape(p, q.props) && fs[i].props == SavedProps(p)
    ensures var r := Step(PhaseAt(SaveAll(fs), 2), KeysAt(SaveAll(fs), 2), q);
      && r == q.(props := r.props) && SameShape(p, r.props)
      && Restored(p, r.props, Deferred(Tree(None, Entries(PropPart, fs)), q.nick, "started"))
  {
    hide Entries, SaveAll, Deferred, SetProps, SetSoFar, GetTree;
    var properties := Tree(None, Entries(PropPart, fs));
    Sections(fs);
    KeyIff(PropPart, fs, i);
    PropsOf(fs, i);
    SavedIsKnown(fs, i, p);
    var names := ChildKeys(Tree(None, PropKids(fs[i].props)));
    assert forall k :: 0 <= k < |names| ==> names[k] == fs[i].props[k].0;
    SetPropsRestores(properties, p, q, names, |names|);
    var r := SetProps(properties, q.nick, names, |names|, q);
    AllSet(p, q.props, names, Deferred(properties, q.nick, "started"), r.props);
    if fs[i].props == [] {
      NothingSet(properties, q, names);
    }
  }

  lemma {:induction false} NothingSet(properties: Tree, q: Quid, names: seq<string>)
    requires names == []
    ensures SetProps(properties, q.nick, names, 0, q) == q
  {
  }

  lemma {:induction false} AllSet(p: seq<Prop>, b: seq<Prop>, names: seq<string>, put: bool, r: seq<Prop>)
    requires GoodProps(p) && SameShape(p, b) && SameShape(p, r)
    requires |names| == |SavedProps(p)| && forall k :: 0 <= k < |names| ==> names[k] == SavedProps(p)[k].0
    requires SetSoFar(p, b, names, |names|, put, r)
    ensures Restored(p, r, put)
  {
    SavedPropsAre(p);
    assert names[..|names|] == names;
    forall j | 0 <= j < |p| && p[j].writable && p[j].saved ensures p[j].name in names {
      var k :| 0 <= k < |names| && SavedProps(p)[k] == (p[j].name, p[j].value);
      assert names[k] == p[j].name;
    }
  }

  lemma {:induction false} FillingEffect(fs: seq<Facts>, i: nat, q: Quid)
    requires Good(fs) && i < |fs| && q.nick == fs[i].nick && Proper(fs[i].userData)
    ensures var r := Step(PhaseAt(SaveAll(fs), 3), KeysAt(SaveAll(fs), 3), q);
      r == q.(userData := r.userData) && Refilled(q.userData, fs[i].userData, r.userData)
  {
    hide Entries, SaveAll, GetTree, Sub, Apply, Refilled;
    var data := Tree(None, Entries(DataPart, fs));
    Sections(fs);
    KeyIff(DataPart, fs, i);
    EntryAt(DataPart, fs, i);
    NothingIsEmpty(fs[i]);
    if q.nick in KeysAt(SaveAll(fs), 3) {
      LoadRefills(data, q.nick, q);
    } else {
      RefilledByNothing(q.userData);
    }
  }

  lemma {:induction false} NothingIsEmpty(f: Facts)
    ensures OrEmpty(Entry(DataPart, f)) == f.userData && OrEmpty(Entry(CustomPart, f)) == f.custom
  {
  }

  lemma {:induction false} StartingEffect(fs: seq<Facts>, i: nat, p: seq<Prop>, q: Quid)
    requires Good(fs) && i < |fs| && q.nick == fs[i].nick
    requires GoodProps(p) && SameShape(p, q.props) && fs[i].props == SavedProps(p)
    requires Restored(p, q.props, Deferred(Tree(None, Entries(PropPart, fs)), q.nick, "started"))
    ensures var r := Step(PhaseAt(SaveAll(fs), 4), KeysAt(SaveAll(fs), 4), q);
      r == q.(props := r.props) && SameShape(p, r.props) && Restored(p, r.props, false)
  {
    hide Entries, SaveAll, Deferred, GetTree, SavedProps, SetProp, KeysAt, WillStart;
    StartKeyIff(fs, i);
    var j := PropIndex(p, "started");
    if j < |p| && p[j].writable && p[j].saved {
      DeferredIff(fs, i, p, j);
      StartedIff(fs, i, p, j);
    }
    SetStarted(p, q);
  }

  lemma {:induction false} StartKeyIff(fs: seq<Facts>, i: nat)
    requires Good(fs) && i < |fs|
    ensures var properties := Tree(None, Entries(PropPart, fs));
      fs[i].nick in KeysAt(SaveAll(fs), 4) <==>
        fs[i].nick in ChildKeys(properties) && WillStart(properties, fs[i].nick)
  {
    hide Entries, SaveAll, WillStart, GetTree, ToStart, KeysAt;
    var properties, n := Tree(None, Entries(PropPart, fs)), |Entries(PropPart, fs)|;
    StartKeysAre(fs);
    KeysAreDistinct(PropPart, fs);
    WillingAre(properties, n);
    assert ChildKeys(properties)[..n] == ChildKeys(properties);
  }

  lemma {:induction false} StartKeysAre(fs: seq<Facts>)
    requires Good(fs)
    ensures KeysAt(SaveAll(fs), 4) == Willing(Tree(None, Entries(PropPart, fs)), |Entries(PropPart, fs)|)
  {
    hide Entries, SaveAll, GetTree, ToStart, Willing;
    Sections(fs);
    StartKeys(fs);
  }

  lemma {:induction false} StartedIff(fs: seq<Facts>, i: nat, p: seq<Prop>, j: nat)
    requires Good(fs) && i < |fs| && GoodProps(p) && fs[i].props == SavedProps(p)
    requires j < |p| && p[j].writable && p[j].saved && p[j].name == "started"
    ensures fs[i].nick in ChildKeys(Tree(None, Entries(PropPart, fs)))
    ensures WillStart(Tree(None, Entries(PropPart, fs)), fs[i].nick) <==> p[j].value == Bool(true)
  {
    hide Entries, SavedProps, GetTree, Deferred;
    DeferredIff(fs, i, p, j);
    SavedPropsAre(p);
    assert (p[j].name, p[j].value) in SavedProps(p);
    KeyIff(PropPart, fs, i);
  }

  lemma {:induction false} SetStarted(p: seq<Prop>, q: Quid)
    requires GoodProps(p) && SameShape(p, q.props)
    ensures var r, j := SetProp(q, "started", "true"), PropIndex(p, "started");
      && r == q.(props := r.props) && SameShape(p, r.props)
      && (forall k :: 0 <= k < |p| && k != j ==> r.props[k] == q.props[k])
      && (j < |p| && p[j].writable && p[j].value.Bool? ==> r.props[j].value == Bool(true))
  {
    SameIndex(p, q.props, "started");
  }

  lemma {:induction false} SameIndex(p: seq<Prop>, b: seq<Prop>, name: string)
    requires SameShape(p, b)
    ensures PropIndex(p, name) == PropIndex(b, name)
  {
    if p != [] && p[0].name != name {
      SameIndex(p[1..], b[1..], name);
    }
  }

  /** An empty custom tree is never passed on, so a new quiddity keeps the one of its kind. */
  function CustomBack(kinds: Kinds, f: Facts): Tree {
    if f.kind != None && f.kind.value in kinds && f.custom.IsEmpty() then kinds[f.kind.value].custom else f.custom
  }

  /** All phases on one quiddity; b is what the load finds, p what was saved. */
  lemma {:induction false} ChainEffect(fs: seq<Facts>, i: nat, p: seq<Prop>, b: Quid)
    requires Good(fs) && i < |fs| && b.nick == fs[i].nick && Proper(fs[i].userData)
    requires GoodProps(p) && SameShape(p, b.props) && fs[i].props == SavedProps(p)
    ensures var r := Chain(SaveAll(fs), b, PHASES);
      && SameShape(p, r.props) && SavedProps(r.props) == fs[i].props
      && r.id == b.id && r.nick == b.nick && r.kind == b.kind
      && r.custom == (if fs[i].kind == None || fs[i].custom.IsEmpty() then b.custom else fs[i].custom)
      && Refilled(b.userData, fs[i].userData, r.userData)
  {
    hide Chain, Step, SaveAll, PhaseAt, KeysAt, Deferred, Refilled;
    var t := SaveAll(fs);
    ChainIs(t, b, 1);
    ChainIs(t, b, 2);
    ChainIs(t, b, 3);
    ChainIs(t, b, 4);
    ChainIs(t, b, 5);
    ChainIs(t, b, 6);
    OnLoadingEffect(fs, i, b);
    var c1 := Chain(t, b, 1);
    NamingEffect(fs, c1);
    var c2 := Chain(t, b, 2);
    SettingEffect(fs, i, p, c2);
    var c3 := Chain(t, b, 3);
    FillingEffect(fs, i, c3);
    var c4 := Chain(t, b, 4);
    StartingEffect(fs, i, p, c4);
    var c5 := Chain(t, b, 5);
    LoadedEffect(t, c5);
    SameSaved(p, c5.props);
  }

  lemma {:induction false} LoadedEffect(t: Tree, q: Quid)
    ensures Step(PhaseAt(t, 5), KeysAt(t, 5), q) == q
  {
    hide KeysAt;
  }

  lemma {:induction false} ChainIs(t: Tree, b: Quid, k: nat)
    requires k > 0
    ensures Chain(t, b, k) == Step(PhaseAt(t, k - 1), KeysAt(t, k - 1), if k == 1 then b else Chain(t, b, k - 1))
  {
    hide Step, PhaseAt, KeysAt;
  }

  // ---- Creation

  ghost predicate SplitAt(kinds: Kinds, fs: seq<Facts>, r: nat) {
    && r <= |fs| && (forall i :: 0 <= i < r ==> fs[i].kind == None)
    && (forall i :: r <= i < |fs| ==> fs[i].kind.Some? && fs[i].kind.value in kinds)
  }

  lemma {:induction false} KindEntries(kinds: Kinds, fs: seq<Facts>, r: nat)
    requires SplitAt(kinds, fs, r)
    ensures |Entries(KindPart, fs)| == |fs| - r
    ensures forall j :: 0 <= j < |fs| - r ==> Entries(KindPart, fs)[j].0 == fs[r + j].nick
    decreases |fs|
  {
    if |fs| > 0 {
      KindEntries(kinds, fs[..|fs| - 1], if r == |fs| then r - 1 else r);
    }
  }

  function NewQuid(kinds: Kinds, f: Facts, id: nat): Quid
    requires f.kind.Some? && f.kind.value in kinds
  {
    var made := kinds[f.kind.value];
    Quid(id, f.kind.value, f.nick, made.props, EMPTY, made.custom)
  }

  /** The quiddities that were created are created again, in their order, with new ids. */
  lemma {:induction false} CreatesAll(kinds: Kinds, mid: State, fs: seq<Facts>, n: nat)
    requires Good(fs) && SplitAt(kinds, fs, |mid.quids|) && n <= |fs| - |mid.quids|
    requires forall i :: 0 <= i < |mid.quids| ==> mid.quids[i].nick == fs[i].nick
    requires |Entries(KindPart, fs)| == |fs| - |mid.quids|
    ensures MadeFrom(kinds, mid, fs, CreateAll(kinds, mid, Tree(None, Entries(KindPart, fs)), n), n)
  {
    hide Entries, GetValue, AfterCreate, MadeFrom;
    if n > 0 {
      CreatesAll(kinds, mid, fs, n - 1);
      var quiddities := Tree(None, Entries(KindPart, fs));
      var before := CreateAll(kinds, mid, quiddities, n - 1);
      var f := fs[|mid.quids| + n - 1];
      KindEntries(kinds, fs, |mid.quids|);
      assert ChildKeys(quiddities)[n - 1] == f.nick;
      KindIsRead(fs, |mid.quids| + n - 1);
      MadeNicks(kinds, mid, fs, before, n - 1);
      CreatesOne(kinds, before, f);
      OneMoreMade(kinds, mid, fs, before, n - 1);
    } else {
      NoneMade(kinds, mid, fs);
    }
  }

  ghost predicate MadeFrom(kinds: Kinds, mid: State, fs: seq<Facts>, made: State, n: nat)
    requires SplitAt(kinds, fs, |mid.quids|) && n <= |fs| - |mid.quids|
  {
    && made.lastId == mid.lastId + n && made.atReset == mid.atReset && |made.quids| == |mid.quids| + n
    && (forall i :: 0 <= i < |mid.quids| ==> made.quids[i] == mid.quids[i])
    && (forall i :: |mid.quids| <= i < |made.quids| ==>
      made.quids[i] == NewQuid(kinds, fs[i], mid.lastId + 1 + i - |mid.quids|))
  }

  lemma {:induction false} MadeNicks(kinds: Kinds, mid: State, fs: seq<Facts>, made: State, n: nat)
    requires SplitAt(kinds, fs, |mid.quids|) && n <= |fs| - |mid.quids| && MadeFrom(kinds, mid, fs, made, n)
    requires forall i :: 0 <= i < |mid.quids| ==> mid.quids[i].nick == fs[i].nick
    ensures |made.quids| == |mid.quids| + n
    ensures forall i :: 0 <= i < |made.quids| ==> made.quids[i].nick == fs[i].nick
  {
  }

  lemma {:induction false} NoneMade(kinds: Kinds, mid: State, fs: seq<Facts>)
    requires SplitAt(kinds, fs, |mid.quids|)
    ensures MadeFrom(kinds, mid, fs, mid, 0)
  {
  }

  lemma {:induction false} OneMoreMade(kinds: Kinds, mid: State, fs: seq<Facts>, before: State, n: nat)
    requires SplitAt(kinds, fs, |mid.quids|) && n < |fs| - |mid.quids| && MadeFrom(kinds, mid, fs, before, n)
    ensures var made := NewQuid(kinds, fs[|mid.quids| + n], before.lastId + 1);
      MadeFrom(kinds, mid, fs, before.(lastId := before.lastId + 1, quids := before.quids + [made]), n + 1)
  {
  }

  lemma {:induction false} CreatesOne(kinds: Kinds, s: State, f: Facts)
    requires IsKey(f.nick) && f.kind.Some? && f.kind.value in kinds
    requires forall i :: 0 <= i < |s.quids| ==> s.quids[i].nick != f.nick
    ensures AfterCreate(kinds, s, f.kind.value, f.nick) ==
      s.(lastId := s.lastId + 1, quids := s.quids + [NewQuid(kinds, f, s.lastId + 1)])
  {
  }

  lemma {:induction false} KindIsRead(fs: seq<Facts>, i: nat)
    requires Good(fs) && i < |fs| && fs[i].kind.Some?
    ensures GetValue(Tree(None, Entries(KindPart, fs)), fs[i].nick) == Some(Text(fs[i].kind.value))
  {
    hide Entries, Sub;
    EntryAt(KindPart, fs, i);
    GetOfKey(Tree(None, Entries(KindPart, fs)), fs[i].nick);
  }

  // ---- The round trip

  lemma {:induction false} KeptIs(quids: seq<Quid>, atReset: seq<nat>, r: nat)
    requires r <= |quids| && forall i :: 0 <= i < |quids| ==> (i < r <==> quids[i].id in atReset)
    ensures KeptAtReset(quids, atReset) == quids[..r]
    decreases |quids|
  {
    if quids != [] {
      var n := |quids| - 1;
      if r == |quids| {
        KeptIs(quids[..n], atReset, n);
        assert quids[..n][..n] + [quids[n]] == quids[..r];
      } else {
        KeptIs(quids[..n], atReset, r);
        assert quids[..n][..r] == quids[..r];
      }
    }
  }

  lemma {:induction false} KeptIsPrefix(quids: seq<Quid>, atReset: seq<nat>) returns (r: nat)
    requires forall i, j :: 0 <= i < j < |quids| && quids[i].id !in atReset ==> quids[j].id !in atReset
    ensures r <= |quids| && KeptAtReset(quids, atReset) == quids[..r]
    ensures forall i :: 0 <= i < |quids| ==> (i < r <==> quids[i].id in atReset)
  {
    r := 0;
    while r < |quids| && quids[r].id in atReset
      invariant r <= |quids| && forall i :: 0 <= i < r ==> quids[i].id in atReset
    {
      r := r + 1;
    }
    KeptIs(quids, atReset, r);
  }

  /** The quiddities kept at the reset may get other property values and other user data before the load, and ids may
      be used up. */
  ghost predicate Drifted(kept: State, mid: State) {
    && mid.atReset == kept.atReset && kept.lastId <= mid.lastId && |mid.quids| == |kept.quids|
    && forall i :: 0 <= i < |kept.quids| ==>
      && mid.quids[i] == kept.quids[i].(props := mid.quids[i].props, userData := mid.quids[i].userData)
      && SameShape(kept.quids[i].props, mid.quids[i].props) && Proper(mid.quids[i].userData)
  }

  /** The user data that the load finds; a quiddity that it creates has none. */
  function FoundData(mid: State, i: nat): Tree { if i < |mid.quids| then mid.quids[i].userData else EMPTY }

  /** All facts are as saved, but for a custom tree that is taken from the kind and for the user data, in which the
      saved children have been put over those there were. */
  ghost predicate BackFacts(kinds: Kinds, f: Facts, was: Tree, g: Facts) {
    && g.nick == f.nick && g.kind == f.kind && g.props == f.props && g.custom == CustomBack(kinds, f)
    && Refilled(was, f.userData, g.userData)
  }

  ghost predicate BackAs(kinds: Kinds, s: State, mid: State, after: State, i: nat)
    requires i < |s.quids| == |after.quids|
  {
    && SameShape(s.quids[i].props, after.quids[i].props) && after.quids[i].kind == s.quids[i].kind
    && after.quids[i].id <= after.lastId
    && BackFacts(kinds, FactsOf(s.quids[i], s.atReset), FoundData(mid, i), FactsOf(after.quids[i], after.atReset))
  }

  /** What a load makes of a saved state, quiddity by quiddity. */
  lemma {:induction false} LoadGives(kinds: Kinds, s: State, mid: State)
    requires Valid(kinds, s) && Drifted(AfterReset(s, true), mid)
    ensures var after := AfterLoad(kinds, mid, Saved(s));
      && |after.quids| == |s.quids| && after.atReset == mid.atReset && after.lastId >= mid.lastId
      && forall i :: 0 <= i < |s.quids| ==> BackAs(kinds, s, mid, after, i)
  {
    hide Saved, SaveAll, After, CreateAll, Chain, Entries, GetTree, BackAs, BackFrom, MadeFrom, SplitAt, Good;
    var r := KeptIsPrefix(s.quids, s.atReset);
    var fs := AllFacts(s);
    AllFactsAreGood(kinds, s);
    SplitsAt(kinds, s, r);
    KindEntries(kinds, fs, r);
    CreatesAll(kinds, mid, fs, |fs| - r);
    Sections(fs);
    SavedIs(s);
    var made := CreateAll(kinds, mid, Tree(None, Entries(KindPart, fs)), |fs| - r);
    LoadFrom(kinds, s, mid, r, made);
  }

  lemma {:induction false} LoadFrom(kinds: Kinds, s: State, mid: State, r: nat, made: State)
    requires Valid(kinds, s) && Drifted(AfterReset(s, true), mid) && Good(AllFacts(s))
    requires r <= |s.quids| && AfterReset(s, true).quids == s.quids[..r]
    requires forall j :: 0 <= j < |s.quids| ==> (j < r <==> s.quids[j].id in s.atReset)
    requires SplitAt(kinds, AllFacts(s), r) && |mid.quids| == r
    requires MadeFrom(kinds, mid, AllFacts(s), made, |s.quids| - r)
    ensures var after := made.(quids := After(SaveAll(AllFacts(s)), made.quids, PHASES));
      && |after.quids| == |s.quids| && after.atReset == mid.atReset && after.lastId >= mid.lastId
      && forall i :: 0 <= i < |s.quids| ==> BackAs(kinds, s, mid, after, i)
  {
    hide SaveAll, After, Chain, BackAs, BackFrom, MadeFrom, Valid, Drifted, AfterReset, Good, SplitAt;
    var fs := AllFacts(s);
    NicksFrom(kinds, s, mid, r, made);
    EachByItself(fs, made.quids, PHASES);
    var after := made.(quids := After(SaveAll(fs), made.quids, PHASES));
    MadeCounts(kinds, mid, fs, made, |s.quids| - r);
    forall i | 0 <= i < |s.quids| ensures BackAs(kinds, s, mid, after, i) {
      OneComesBack(kinds, s, mid, r, i, made);
      BackIs(kinds, s, mid, after, i);
    }
  }

  lemma {:induction false} NicksFrom(kinds: Kinds, s: State, mid: State, r: nat, made: State)
    requires Drifted(AfterReset(s, true), mid) && Good(AllFacts(s))
    requires r <= |s.quids| && AfterReset(s, true).quids == s.quids[..r]
    requires SplitAt(kinds, AllFacts(s), r) && MadeFrom(kinds, mid, AllFacts(s), made, |s.quids| - r)
    ensures |made.quids| == |s.quids| && DistinctNicks(made.quids)
  {
    hide MadeFrom, SplitAt;
    MadeNicks(kinds, mid, AllFacts(s), made, |s.quids| - r);
  }

  lemma {:induction false} MadeCounts(kinds: Kinds, mid: State, fs: seq<Facts>, made: State, n: nat)
    requires SplitAt(kinds, fs, |mid.quids|) && n <= |fs| - |mid.quids| && MadeFrom(kinds, mid, fs, made, n)
    ensures made.lastId == mid.lastId + n && made.atReset == mid.atReset
  {
  }

  lemma {:induction false} SavedIs(s: State)
    ensures Saved(s) == SaveAll(AllFacts(s))
  {
  }

  lemma {:induction false} SplitsAt(kinds: Kinds, s: State, r: nat)
    requires Valid(kinds, s) && r <= |s.quids|
    requires forall i :: 0 <= i < |s.quids| ==> (i < r <==> s.quids[i].id in s.atReset)
    ensures SplitAt(kinds, AllFacts(s), r)
  {
    forall i | r <= i < |s.quids| ensures AllFacts(s)[i].kind.Some? && AllFacts(s)[i].kind.value in kinds {
      assert GoodQuid(kinds, s, s.quids[i]);
    }
  }

  ghost predicate BackFrom(kinds: Kinds, s: State, mid: State, i: nat, q: Quid, lastId: nat, atReset: seq<nat>)
    requires i < |s.quids|
  {
    && SameShape(s.quids[i].props, q.props) && q.kind == s.quids[i].kind && q.id <= lastId
    && BackFacts(kinds, FactsOf(s.quids[i], s.atReset), FoundData(mid, i), FactsOf(q, atReset))
  }

  lemma {:induction false} BackIs(kinds: Kinds, s: State, mid: State, after: State, i: nat)
    requires i < |s.quids| == |after.quids|
    requires BackFrom(kinds, s, mid, i, after.quids[i], after.lastId, after.atReset)
    ensures BackAs(kinds, s, mid, after, i)
  {
  }

  lemma {:induction false} OneComesBack(kinds: Kinds, s: State, mid: State, r: nat, i: nat, made: State)
    requires Valid(kinds, s) && Drifted(AfterReset(s, true), mid) && i < |s.quids|
    requires r <= |s.quids| && AfterReset(s, true).quids == s.quids[..r]
    requires forall j :: 0 <= j < |s.quids| ==> (j < r <==> s.quids[j].id in s.atReset)
    requires Good(AllFacts(s)) && SplitAt(kinds, AllFacts(s), r)
    requires MadeFrom(kinds, mid, AllFacts(s), made, |s.quids| - r)
    ensures var q := Chain(SaveAll(AllFacts(s)), made.quids[i], PHASES);
      BackFrom(kinds, s, mid, i, q, made.lastId, mid.atReset)
  {
    hide SaveAll, Chain, Refilled;
    var fs, q, b := AllFacts(s), s.quids[i], made.quids[i];
    assert GoodQuid(kinds, s, q);
    assert mid.atReset == IdsOf(s.quids[..r]);
    if i < r {
      assert IdsOf(s.quids[..r])[i] == q.id;
    } else {
      forall id | id in mid.atReset ensures id <= s.lastId {
        var k :| 0 <= k < r && IdsOf(s.quids[..r])[k] == id;
        assert GoodQuid(kinds, s, s.quids[k]);
      }
    }
    ChainEffect(fs, i, q.props, b);
  }

  /** The next save equals the first, exactly when every quiddity created since the reset either saves a custom tree or
      has none by default, and when the user data that the load finds can get back to what it was: its root value is
      the saved one, and its children are the first of those saved. A created quiddity is found without user data. */
  lemma {:induction false} RoundTripIff(kinds: Kinds, s: State, mid: State)
    requires Valid(kinds, s) && Drifted(AfterReset(s, true), mid)
    ensures Saved(AfterLoad(kinds, mid, Saved(s))) == Saved(s) <==>
      forall i :: 0 <= i < |s.quids| ==> CanComeBack(kinds, s, mid, i)
  {
    hide AfterLoad, SaveAll, Entry, Refilled, CanReturn;
    var after := AfterLoad(kinds, mid, Saved(s));
    LoadGives(kinds, s, mid);
    AllFactsAreGood(kinds, s);
    forall i | 0 <= i < |s.quids|
      ensures BackFacts(kinds, AllFacts(s)[i], FoundData(mid, i), AllFacts(after)[i])
      ensures AllFacts(after)[i] == AllFacts(s)[i] <==> CanComeBack(kinds, s, mid, i)
    {
      assert BackAs(kinds, s, mid, after, i) && GoodQuid(kinds, s, s.quids[i]);
      FoundIsProper(s, mid, i);
      RefilledIff(FoundData(mid, i), s.quids[i].userData, after.quids[i].userData);
    }
    NamesComeBack(AllFacts(s), AllFacts(after));
    if forall i :: 0 <= i < |s.quids| ==> CanComeBack(kinds, s, mid, i) {
      assert AllFacts(after) == AllFacts(s);
    }
    if Saved(after) == Saved(s) {
      forall i | 0 <= i < |s.quids| ensures AllFacts(after)[i] == AllFacts(s)[i] {
        SameTreeSameFacts(AllFacts(s), AllFacts(after), i);
      }
    }
  }

  predicate CanComeBack(kinds: Kinds, s: State, mid: State, i: nat)
    requires i < |s.quids|
  {
    var q := s.quids[i];
    && (q.id !in s.atReset && q.kind in kinds && q.custom.IsEmpty() ==> kinds[q.kind].custom.IsEmpty())
    && CanReturn(FoundData(mid, i), q.userData)
  }

  lemma {:induction false} FoundIsProper(s: State, mid: State, i: nat)
    requires Drifted(AfterReset(s, true), mid)
    ensures Proper(FoundData(mid, i))
  {
  }

  lemma {:induction false} NamesComeBack(fs: seq<Facts>, gs: seq<Facts>)
    requires Good(fs) && |gs| == |fs|
    requires forall i :: 0 <= i < |fs| ==>
      gs[i].nick == fs[i].nick && gs[i].kind == fs[i].kind && gs[i].props == fs[i].props
    ensures Good(gs)
  {
    forall i | 0 <= i < |fs| ensures GoodNames(gs[i]) {
      assert GoodNames(fs[i]);
    }
  }

  /** Two saves with the same nicknames differ when the custom trees or user data of a quiddity do. */
  lemma {:induction false} SameTreeSameFacts(fs: seq<Facts>, gs: seq<Facts>, i: nat)
    requires Good(fs) && Good(gs) && i < |fs| == |gs| && SaveAll(fs) == SaveAll(gs)
    requires gs[i].nick == fs[i].nick && gs[i].kind == fs[i].kind && gs[i].props == fs[i].props
    ensures gs[i] == fs[i]
  {
    hide SaveAll, Entries, Sub, Entry;
    Section(fs, CustomPart);
    Section(gs, CustomPart);
    Section(fs, DataPart);
    Section(gs, DataPart);
    EntryAt(CustomPart, fs, i);
    EntryAt(CustomPart, gs, i);
    EntryAt(DataPart, fs, i);
    EntryAt(DataPart, gs, i);
    NothingIsEmpty(fs[i]);
    NothingIsEmpty(gs[i]);
  }
}
