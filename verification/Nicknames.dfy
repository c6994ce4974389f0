/** What becomes of a nickname with dots when a state is saved and loaded. */
module Nicknames {
  import opened InfoTree
  import opened Switcher
  import opened SavedTree
  import opened RoundTrip

  // ---- The tree of one quiddity

  lemma {:induction false} SavePropsElsewhere(t: Tree, nick: string, props: seq<(string, Val)>, q: Part)
    requires q != PropPart
    ensures Sub(SaveProps(t, nick, props), [Name(q)]) == Sub(t, [Name(q)])
    decreases |props|
  {
    hide Graft, Sub, Put, Keys;
    if props != [] {
      var n := |props| - 1;
      SavePropsElsewhere(t, nick, props[..n], q);
      GraftProperty(SaveProps(t, nick, props[..n]), nick, props[n].0, Leaf(props[n].1), q);
    }
  }

  ghost predicate OnlyKey(t: Tree, key: string) {
    forall i :: 0 <= i < |t.kids| ==> t.kids[i].0 == key
  }

  lemma {:induction false} PutKeepsOnlyKey(t: Tree, key: string, rest: seq<string>, leaf: Tree)
    requires OnlyKey(t, key)
    ensures OnlyKey(Put(t, [key] + rest, leaf), key)
  {
    assert ([key] + rest)[0] == key;
  }

  lemma {:induction false} SavePropsOnlyKey(t: Tree, nick: string, props: seq<(string, Val)>, key: string)
    requires Keys(nick) == [key] && OnlyKey(Sub(t, ["properties"]), key)
    ensures OnlyKey(Sub(SaveProps(t, nick, props), ["properties"]), key)
    decreases |props|
  {
    hide Graft, Sub, Put, Keys;
    if props != [] {
      var n := |props| - 1;
      var before := SaveProps(t, nick, props[..n]);
      SavePropsOnlyKey(t, nick, props[..n], key);
      GraftProperty(before, nick, props[n].0, Leaf(props[n].1), PropPart);
      PutKeepsOnlyKey(Sub(before, ["properties"]), key, Keys(props[n].0), Leaf(props[n].1));
    }
  }

  function Grafted(nick: string, e: Option<Tree>): Tree {
    if e == None then EMPTY else Put(EMPTY, Keys(nick), e.value)
  }

  lemma {:induction false} NothingYet(p: Part)
    ensures Sub(EMPTY, [Name(p)]) == EMPTY
  {
  }

  lemma {:induction false} GraftEntryAt(t: Tree, p: Part, f: Facts, q: Part)
    requires Sub(t, [Name(p)]) == EMPTY
    ensures Sub(GraftEntry(t, p, f), [Name(q)]) == if p == q then Grafted(f.nick, Entry(p, f)) else Sub(t, [Name(q)])
  {
    hide Graft, Sub, Put, Keys;
    match Entry(p, f)
    case None =>
    case Some(e) => GraftInPart(t, p, f.nick, e, q);
  }

  /** The sections of a saved state of one quiddity, whatever its nickname: each entry is where the keys of the
      nickname lead. */
  lemma {:induction false} LoneSection(f: Facts, q: Part)
    requires q != PropPart
    ensures Sub(SaveOne(EMPTY, f), [Name(q)]) == Grafted(f.nick, Entry(q, f))
  {
    hide GraftEntry, Sub, Entry, Grafted;
    var t1 := GraftEntry(EMPTY, CustomPart, f);
    var t2 := GraftEntry(t1, KindPart, f);
    var t3 := GraftEntry(t2, NickPart, f);
    var t4 := GraftEntry(t3, DataPart, f);
    SaveOneIs(EMPTY, f);
    SavePropsElsewhere(t4, f.nick, f.props, q);
    forall p: Part ensures Sub(EMPTY, [Name(p)]) == EMPTY {
      NothingYet(p);
    }
    forall p: Part
      ensures Sub(t1, [Name(p)]) == if p == CustomPart then Grafted(f.nick, Entry(p, f)) else EMPTY
    {
      GraftEntryAt(EMPTY, CustomPart, f, p);
    }
    forall p: Part
      ensures Sub(t2, [Name(p)]) == if p == KindPart then Grafted(f.nick, Entry(p, f)) else Sub(t1, [Name(p)])
    {
      GraftEntryAt(t1, KindPart, f, p);
    }
    forall p: Part
      ensures Sub(t3, [Name(p)]) == if p == NickPart then Grafted(f.nick, Entry(p, f)) else Sub(t2, [Name(p)])
    {
      GraftEntryAt(t2, NickPart, f, p);
    }
    GraftEntryAt(t3, DataPart, f, q);
  }

  /** The sections as a load reads them. */
  lemma {:induction false} LoneTree(s: State)
    requires |s.quids| == 1
    ensures var t, f := Saved(s), FactsOf(s.quids[0], s.atReset);
      && GetTree(t, ".quiddities") == Grafted(f.nick, Entry(KindPart, f))
      && GetTree(t, ".nicknames") == Grafted(f.nick, Entry(NickPart, f))
      && GetTree(t, ".custom_states") == Grafted(f.nick, Entry(CustomPart, f))
      && GetTree(t, "userdata.") == Grafted(f.nick, Entry(DataPart, f))
      && forall key :: Keys(f.nick) == [key] ==> OnlyKey(GetTree(t, ".properties"), key)
  {
    hide GetTree, SaveOne, Grafted, Entry, Sub, Keys, OnlyKey;
    var t, f := Saved(s), FactsOf(s.quids[0], s.atReset);
    SavedIsOne(s);
    LoneSection(f, KindPart);
    LoneSection(f, NickPart);
    LoneSection(f, CustomPart);
    LoneSection(f, DataPart);
    PartPath(t, KindPart);
    PartPath(t, NickPart);
    PartPath(t, CustomPart);
    PartPath(t, PropPart);
    UserDataPath(t);
    assert "." + Name(KindPart) == ".quiddities" && "." + Name(CustomPart) == ".custom_states";
    assert "." + Name(NickPart) == ".nicknames" && "." + Name(PropPart) == ".properties";
    forall key | Keys(f.nick) == [key] ensures OnlyKey(Sub(t, ["properties"]), key) {
      LoneProperties(f, key);
    }
  }

  lemma {:induction false} SavedIsOne(s: State)
    requires |s.quids| == 1
    ensures Saved(s) == SaveOne(EMPTY, FactsOf(s.quids[0], s.atReset))
  {
    hide SaveOne, SavedProps;
    var fs := AllFacts(s);
    assert fs[..0] == [] && SaveAll(fs[..0]) == EMPTY;
  }

  lemma {:induction false} LoneProperties(f: Facts, key: string)
    requires Keys(f.nick) == [key]
    ensures OnlyKey(Sub(SaveOne(EMPTY, f), ["properties"]), key)
  {
    hide GraftEntry, Sub, Entry, Grafted;
    var t1 := GraftEntry(EMPTY, CustomPart, f);
    var t2 := GraftEntry(t1, KindPart, f);
    var t3 := GraftEntry(t2, NickPart, f);
    var t4 := GraftEntry(t3, DataPart, f);
    SaveOneIs(EMPTY, f);
    forall p: Part ensures Sub(EMPTY, [Name(p)]) == EMPTY {
      NothingYet(p);
    }
    GraftEntryAt(EMPTY, CustomPart, f, KindPart);
    GraftEntryAt(EMPTY, CustomPart, f, NickPart);
    GraftEntryAt(EMPTY, CustomPart, f, DataPart);
    GraftEntryAt(EMPTY, CustomPart, f, PropPart);
    GraftEntryAt(t1, KindPart, f, NickPart);
    GraftEntryAt(t1, KindPart, f, DataPart);
    GraftEntryAt(t1, KindPart, f, PropPart);
    GraftEntryAt(t2, NickPart, f, DataPart);
    GraftEntryAt(t2, NickPart, f, PropPart);
    GraftEntryAt(t3, DataPart, f, PropPart);
    SavePropsOnlyKey(t4, f.nick, f.props, key);
  }

  lemma {:induction false} AtOneKey(nick: string, key: string, e: Tree)
    requires Keys(nick) == [key]
    ensures Grafted(nick, Some(e)) == Tree(None, [(key, e)]) && IsKey(key)
    ensures Sub(Tree(None, [(key, e)]), [key]) == e && GetTree(Tree(None, [(key, e)]), key) == e
  {
    KeysAreKeys(nick);
    assert key in Keys(nick);
    assert [key][1..] == [];
    PutNew(EMPTY, key, e);
    KeysOfKey(key);
  }

  // ---- Loading it

  /** A nickname without a key, or with several, names nothing that can be created. */
  lemma {:induction false} NothingCreated(kinds: Kinds, mid: State, nick: string, kind: string)
    requires "" !in kinds && |Keys(nick)| != 1
    ensures var quiddities := Grafted(nick, Some(Leaf(Text(kind))));
      CreateAll(kinds, mid, quiddities, |quiddities.kids|) == mid
  {
    var keys, leaf := Keys(nick), Leaf(Text(kind));
    var quiddities := Put(EMPTY, keys, leaf);
    if keys != [] {
      KeysAreKeys(nick);
      assert keys[0] in keys;
      var below := Put(EMPTY, keys[1..], leaf);
      assert quiddities == Tree(None, [(keys[0], below)]);
      assert below.data == None;
      GetOfKey(quiddities, keys[0]);
      assert [keys[0]][1..] == [];
      assert Sub(quiddities, [keys[0]]) == below;
      assert CreateAll(kinds, mid, quiddities, 0) == mid;
      assert ChildKeys(quiddities)[0] == keys[0];
    }
  }

  lemma {:induction false} StaysEmpty(t: Tree, k: nat)
    ensures After(t, [], k) == []
  {
    hide PhaseAt, KeysAt, Apply;
    if k > 0 {
      StaysEmpty(t, k - 1);
      NobodyApplies(PhaseAt(t, k - 1), KeysAt(t, k - 1), |KeysAt(t, k - 1)|);
    }
  }

  lemma {:induction false} NobodyApplies(ph: Phase, keys: seq<string>, n: nat)
    requires n <= |keys|
    ensures ApplyAll(ph, keys, n, []) == []
  {
    hide Apply;
    if n > 0 {
      NobodyApplies(ph, keys, n - 1);
    }
  }

  /** Only the naming phase changes a nickname; without a key that names it, a quiddity is left as it is. */
  lemma {:induction false} OneStaysOne(ph: Phase, keys: seq<string>, n: nat, q: Quid)
    requires n <= |keys| && !ph.Naming?
    ensures var r := ApplyAll(ph, keys, n, [q]);
      |r| == 1 && r[0].nick == q.nick && r[0].kind == q.kind && r[0].id == q.id
    ensures q.nick !in keys ==> ApplyAll(ph, keys, n, [q]) == [q]
  {
    hide Apply;
    if n > 0 {
      OneStaysOne(ph, keys, n - 1, q);
      ApplyKeeps(ph, keys[n - 1], ApplyAll(ph, keys, n - 1, [q])[0]);
    }
  }

  lemma {:induction false} ApplyKeeps(ph: Phase, key: string, q: Quid)
    requires !ph.Naming?
    ensures var r := Apply(ph, key, q); r.nick == q.nick && r.kind == q.kind && r.id == q.id
  {
    hide GetTree, FillData, SetProps;
    match ph
    case Setting(properties) =>
      var props := ChildKeys(GetTree(properties, key));
      SetPropsKeep(properties, key, props, |props|, q);
    case _ =>
  }

  lemma {:induction false} SetPropsKeep(properties: Tree, nick: string, props: seq<string>, n: nat, q: Quid)
    requires n <= |props|
    ensures var r := SetProps(properties, nick, props, n, q); r == q.(props := r.props)
  {
    hide Deferred, GetValue;
    if n > 0 {
      SetPropsKeep(properties, nick, props, n - 1, q);
    }
  }

  lemma {:induction false} StartersAreKeys(properties: Tree, n: nat, nick: string)
    requires n <= |properties.kids| && nick in ToStart(properties, n)
    ensures nick in ChildKeys(properties)
  {
    hide GetTree;
    var last := ChildKeys(properties)[n - 1];
    var props := ChildKeys(GetTree(properties, last));
    if nick in ToStart(properties, n - 1) {
      StartersAreKeys(properties, n - 1, nick);
    } else {
      StartersOfOne(properties, last, props, |props|, nick);
      assert ChildKeys(properties)[n - 1] == nick;
    }
  }

  lemma {:induction false} StartersOfOne(properties: Tree, nick: string, props: seq<string>, n: nat, who: string)
    requires n <= |props| && who in ToStartOf(properties, nick, props, n)
    ensures who == nick
  {
    hide Deferred;
    if who in ToStartOf(properties, nick, props, n - 1) {
      StartersOfOne(properties, nick, props, n - 1, who);
    }
  }

  lemma {:induction false} OneLaterPhase(t: Tree, quids: seq<Quid>, k: nat, q: Quid)
    requires k >= 2 && After(t, quids, k) == [q]
    ensures var r := After(t, quids, k + 1);
      |r| == 1 && r[0].nick == q.nick && r[0].kind == q.kind && (q.nick !in KeysAt(t, k) ==> r == [q])
  {
    hide ApplyAll, After, KeysAt, GetTree;
    OnePhase(t, quids, k);
    OneStaysOne(PhaseAt(t, k), KeysAt(t, k), |KeysAt(t, k)|, q);
  }

  lemma {:induction false} LaterKeys(t: Tree, key: string, k: nat, nick: string)
    requires k >= 2 && nick in KeysAt(t, k)
    requires OnlyKey(GetTree(t, ".properties"), key) && OnlyKey(GetTree(t, "userdata."), key)
    requires OnlyKey(GetTree(t, ".quiddities"), key)
    ensures nick == key
  {
    hide GetTree, ToStart;
    if k == 4 {
      var properties := GetTree(t, ".properties");
      StartersAreKeys(properties, |properties.kids|, nick);
    }
  }

  /** The last four phases on the one quiddity. */
  lemma {:induction false} LaterPhases(t: Tree, quids: seq<Quid>, key: string, q: Quid)
    requires After(t, quids, 2) == [q]
    requires OnlyKey(GetTree(t, ".properties"), key) && OnlyKey(GetTree(t, "userdata."), key)
    requires OnlyKey(GetTree(t, ".quiddities"), key)
    ensures var r := After(t, quids, PHASES); |r| == 1 && r[0].nick == q.nick && r[0].kind == q.kind
    ensures q.nick != key ==> After(t, quids, PHASES) == [q]
  {
    hide After, GetTree, KeysAt, OnlyKey;
    OneLaterPhase(t, quids, 2, q);
    var q3 := After(t, quids, 3)[0];
    OneLaterPhase(t, quids, 3, q3);
    var q4 := After(t, quids, 4)[0];
    OneLaterPhase(t, quids, 4, q4);
    var q5 := After(t, quids, 5)[0];
    OneLaterPhase(t, quids, 5, q5);
    forall k | 2 <= k <= 5 && q.nick in KeysAt(t, k) ensures q.nick == key {
      LaterKeys(t, key, k, q.nick);
    }
  }

  /** What a quiddity is after on_loading and the naming phase. */
  function Recreated(kinds: Kinds, q: Quid, id: nat): Quid
    requires q.kind in kinds
  {
    var made := kinds[q.kind];
    Quid(id, q.kind, q.nick, made.props, EMPTY, if q.custom.IsEmpty() then made.custom else q.custom)
  }

  lemma {:induction false} FirstPhases(kinds: Kinds, s: State, mid: State, key: string)
    requires |s.quids| == 1 && s.quids[0].id !in s.atReset && s.quids[0].kind in kinds
    requires Keys(s.quids[0].nick) == [key] && mid.quids == []
    ensures var t, quiddities := Saved(s), GetTree(Saved(s), ".quiddities");
      var made := CreateAll(kinds, mid, quiddities, |quiddities.kids|);
      After(t, made.quids, 2) == [Recreated(kinds, s.quids[0], mid.lastId + 1)]
  {
    hide Saved, Grafted, GetTree, Keys, Sub, SavedProps;
    var t, q := Saved(s), s.quids[0];
    var f := FactsOf(q, s.atReset);
    LoneTree(s);
    var leaf, name := Leaf(Text(q.kind)), Leaf(Text(q.nick));
    AtOneKey(q.nick, key, leaf);
    AtOneKey(q.nick, key, name);
    AtOneKey(q.nick, key, q.custom);
    var quiddities, nicknames := Tree(None, [(key, leaf)]), Tree(None, [(key, name)]);
    assert GetTree(t, ".quiddities") == quiddities && GetTree(t, ".nicknames") == nicknames;
    assert ChildKeys(quiddities) == [key] && ChildKeys(nicknames) == [key];
    var b := Quid(mid.lastId + 1, q.kind, key, kinds[q.kind].props, EMPTY, kinds[q.kind].custom);
    assert CreateAll(kinds, mid, quiddities, 0) == mid;
    assert CreateAll(kinds, mid, quiddities, 1).quids == [b];
    var customs := GetTree(t, ".custom_states");
    EmptyGrafted(q.nick);
    assert customs == if q.custom.IsEmpty() then EMPTY else Tree(None, [(key, q.custom)]);
    var b1 := if q.custom.IsEmpty() then b else b.(custom := q.custom);
    assert Apply(Loading(customs), key, b) == b1;
    OneApplied(Loading(customs), key, b);
    assert Apply(Naming(nicknames), key, b1) == Recreated(kinds, q, mid.lastId + 1);
    OneApplied(Naming(nicknames), key, b1);
    NoPhase(t, [b]);
    OnePhase(t, [b], 0);
    OnePhase(t, [b], 1);
  }

  lemma {:induction false} EmptyGrafted(nick: string)
    ensures Grafted(nick, None) == EMPTY
  {
  }

  lemma {:induction false} OneApplied(ph: Phase, key: string, q: Quid)
    requires q.nick == key
    ensures ApplyAll(ph, [key], 1, [q]) == [Apply(ph, key, q)]
  {
    hide Apply;
    assert ApplyAll(ph, [key], 0, [q]) == [q];
  }

  /** A quiddity comes back with its nickname exactly when the nickname has one key, dots around it allowed. With dots
      its property values and its user data are lost: they are saved under the key, which is no nickname any more
      when they are looked for. With no key, or with several, the quiddity itself is lost. */
  lemma {:induction false} LoneNicknameIff(kinds: Kinds, s: State)
    requires |s.quids| == 1 && s.quids[0].id !in s.atReset && s.quids[0].kind in kinds && "" !in kinds
    ensures var q, after := s.quids[0], AfterLoad(kinds, AfterReset(s, true), Saved(s)).quids;
      && (|Keys(q.nick)| == 1 <==> |after| == 1 && after[0].nick == q.nick && after[0].kind == q.kind)
      && (|Keys(q.nick)| != 1 ==> after == [])
      && (|Keys(q.nick)| == 1 && !DotFree(q.nick) ==> after == [Recreated(kinds, q, s.lastId + 1)])
  {
    hide Saved, Grafted, GetTree, CreateAll, After, Keys, Recreated;
    var q, t, mid := s.quids[0], Saved(s), AfterReset(s, true);
    var f := FactsOf(q, s.atReset);
    NoneKept(s);
    LoneTree(s);
    if |Keys(q.nick)| != 1 {
      NothingCreated(kinds, mid, q.nick, q.kind);
      StaysEmpty(t, PHASES);
    } else {
      var key := Keys(q.nick)[0];
      assert Keys(q.nick) == [key];
      FirstPhases(kinds, s, mid, key);
      var quiddities := GetTree(t, ".quiddities");
      var made := CreateAll(kinds, mid, quiddities, |quiddities.kids|);
      GraftedOnlyKey(q.nick, key, Entry(KindPart, f));
      GraftedOnlyKey(q.nick, key, Entry(DataPart, f));
      RecreatedKeeps(kinds, q, mid.lastId + 1);
      LaterPhases(t, made.quids, key, Recreated(kinds, q, mid.lastId + 1));
      if !DotFree(q.nick) {
        DotsAreNoKey(q.nick, key);
      }
    }
  }

  lemma {:induction false} NoneKept(s: State)
    requires |s.quids| == 1 && s.quids[0].id !in s.atReset
    ensures AfterReset(s, true) == State([], s.lastId, [])
  {
    assert s.quids[..0] == [] && KeptAtReset(s.quids[..0], s.atReset) == [];
    assert IdsOf([]) == [];
  }

  lemma {:induction false} RecreatedKeeps(kinds: Kinds, q: Quid, id: nat)
    requires q.kind in kinds
    ensures Recreated(kinds, q, id).nick == q.nick && Recreated(kinds, q, id).kind == q.kind
  {
  }

  lemma {:induction false} GraftedOnlyKey(nick: string, key: string, e: Option<Tree>)
    requires Keys(nick) == [key]
    ensures OnlyKey(Grafted(nick, e), key)
  {
    if e != None {
      AtOneKey(nick, key, e.value);
    }
  }

  lemma {:induction false} DotsAreNoKey(nick: string, key: string)
    requires Keys(nick) == [key] && !DotFree(nick)
    ensures nick != key
  {
    KeysAreKeys(nick);
    assert key in Keys(nick);
  }
}
