/** Quiddities over whole runs, with loads of any tree: their ids, and what a change of one of them does. */
module Quiddities {
  import opened InfoTree
  import opened Switcher
  import opened SavedTree
  import opened UserData
  import opened RoundTrip
  import opened SavedStates

  // ---- What a load leaves alone, whatever the tree

  /** The same quiddity: only values of writable properties, nickname and trees may differ. */
  ghost predicate Same(p: Quid, q: Quid) {
    q.id == p.id && q.kind == p.kind && SameProps(p.props, q.props)
  }

  ghost predicate SameProps(p: seq<Prop>, b: seq<Prop>) {
    SameShape(p, b) && forall i :: 0 <= i < |p| && !p[i].writable ==> b[i] == p[i]
  }

  ghost predicate AllSame(a: seq<Quid>, b: seq<Quid>) {
    |a| == |b| && forall i :: 0 <= i < |a| ==> Same(a[i], b[i])
  }

  /** Setting a property from text: a boolean is read from the first letter, a text it cannot read changes nothing,
      and neither does a name that no writable property has. */
  lemma {:induction false} SetPropIs(q: Quid, name: string, text: string, i: nat)
    requires GoodProps(q.props) && i < |q.props|
    ensures var p, r := q.props[i], SetProp(q, name, text);
      && r == q.(props := r.props) && |r.props| == |q.props| && r.props[i] == p.(value := r.props[i].value)
      && r.props[i].value ==
        (if p.name != name || !p.writable then p.value
         else if p.value.Text? then Text(text)
         else if text != "" && text[0] in {'t', 'T'} then Bool(true)
         else if text != "" && text[0] in {'f', 'F'} then Bool(false)
         else p.value)
  {
    if q.props[i].name == name {
      IndexOfProp(q.props, i);
    }
  }

  /** What a property of the type of `was` becomes when it is set to what is saved at a place, if anything. */
  function Read(was: Val, saved: Option<Val>): Val {
    match saved
    case Some(Bool(b)) => if was.Text? then Text(if b then "true" else "false") else Bool(b)
    case Some(Text(text)) =>
      if was.Text? then Text(text)
      else if text != "" && text[0] in {'t', 'T'} then Bool(true)
      else if text != "" && text[0] in {'f', 'F'} then Bool(false)
      else was
    case None => if was.Text? then Text("null") else was
  }

  lemma {:induction false} SetsOne(q: Quid, name: string, saved: Option<Val>, i: nat)
    requires GoodProps(q.props) && i < |q.props|
    ensures var p, r := q.props[i], SetProp(q, name, ToText(saved));
      && r == q.(props := r.props) && |r.props| == |q.props|
      && r.props[i] == if p.name == name && p.writable then p.(value := Read(p.value, saved)) else p
  {
    SetPropIs(q, name, ToText(saved), i);
  }

  ghost predicate SetFrom(properties: Tree, nick: string, names: seq<string>, n: nat, p: Prop, r: Prop)
    requires n <= |names|
  {
    r == if p.writable && p.name in names[..n] && !(p.name == "started" && IsTrue(properties, nick)) then
      p.(value := Read(p.value, GetValue(properties, nick + "." + p.name))) else p
  }

  predicate IsTrue(properties: Tree, nick: string) {
    GetValue(properties, nick + ".started") == Some(Bool(true))
  }

  lemma {:induction false} SetsEach(properties: Tree, nick: string, names: seq<string>, n: nat, q: Quid)
    requires GoodProps(q.props) && n <= |names| && DistinctStrings(names)
    ensures var r := SetProps(properties, nick, names, n, q);
      && r == q.(props := r.props) && |r.props| == |q.props| && GoodProps(r.props)
      && forall i :: 0 <= i < |q.props| ==> SetFrom(properties, nick, names, n, q.props[i], r.props[i])
  {
    hide GetValue, SetProp, ToText;
    if n > 0 {
      SetsEach(properties, nick, names, n - 1, q);
      var before, r, name := SetProps(properties, nick, names, n - 1, q), SetProps(properties, nick, names, n, q),
          names[n - 1];
      DeferredIs(properties, nick, name);
      SetPropOnly(before, name, ToText(GetValue(properties, nick + "." + name)));
      forall i | 0 <= i < |q.props|
        ensures SetFrom(properties, nick, names, n, q.props[i], r.props[i])
      {
        InOneMore(names, n, q.props[i].name);
        SetsOne(before, name, GetValue(properties, nick + "." + name), i);
      }
    }
  }

  lemma {:induction false} SetPropOnly(q: Quid, name: string, text: string)
    requires GoodProps(q.props)
    ensures var r := SetProp(q, name, text);
      r == q.(props := r.props) && |r.props| == |q.props| && GoodProps(r.props)
  {
  }

  /** Whatever a tree saves for a quiddity, the load sets each of its writable properties that is named there to the
      value it finds, read as the type of the property, but for a true `started`, and leaves the others alone. */
  lemma {:induction false} LoadSetsEach(properties: Tree, key: string, q: Quid, i: nat)
    requires GoodProps(q.props) && i < |q.props| && DistinctStrings(ChildKeys(GetTree(properties, key)))
    ensures var p, r := q.props[i], Apply(Setting(properties), key, q);
      && r == q.(props := r.props) && |r.props| == |q.props|
      && r.props[i] == p.(value := r.props[i].value)
      && r.props[i].value ==
        if p.writable && p.name in ChildKeys(GetTree(properties, key))
          && !(p.name == "started" && IsTrue(properties, key))
        then Read(p.value, GetValue(properties, key + "." + p.name)) else p.value
  {
    hide SetProps, GetTree, GetValue, Read;
    var names := ChildKeys(GetTree(properties, key));
    SetsEach(properties, key, names, |names|, q);
    assert names[..|names|] == names;
  }

  lemma {:induction false} SetPropSame(q: Quid, name: string, text: string)
    ensures Same(q, SetProp(q, name, text))
  {
  }

  lemma {:induction false} SetPropsSame(properties: Tree, nick: string, props: seq<string>, n: nat, q: Quid)
    requires n <= |props|
    ensures Same(q, SetProps(properties, nick, props, n, q))
  {
    hide SetProp, Deferred, GetValue, ToText;
    if n > 0 {
      SetPropsSame(properties, nick, props, n - 1, q);
      var before := SetProps(properties, nick, props, n - 1, q);
      SetPropSame(before, props[n - 1], ToText(GetValue(properties, nick + "." + props[n - 1])));
    }
  }

  lemma {:induction false} ApplySame(ph: Phase, key: string, q: Quid)
    ensures Same(q, Apply(ph, key, q))
  {
    hide SetProp, SetProps, FillData, GetTree, GetValue;
    match ph
    case Setting(properties) =>
      var props := ChildKeys(GetTree(properties, key));
      SetPropsSame(properties, key, props, |props|, q);
    case Starting => SetPropSame(q, "started", "true");
    case _ =>
  }

  lemma {:induction false} ApplyAllSame(ph: Phase, keys: seq<string>, n: nat, quids: seq<Quid>)
    requires n <= |keys|
    ensures AllSame(quids, ApplyAll(ph, keys, n, quids))
  {
    hide Apply;
    if n > 0 {
      ApplyAllSame(ph, keys, n - 1, quids);
      var before := ApplyAll(ph, keys, n - 1, quids);
      var i := Find(before, keys[n - 1]);
      if i < |before| {
        ApplySame(ph, keys[n - 1], before[i]);
      }
    }
  }

  lemma {:induction false} AfterSame(t: Tree, quids: seq<Quid>, k: nat)
    ensures AllSame(quids, After(t, quids, k))
  {
    hide ApplyAll, PhaseAt, KeysAt, Same;
    if k > 0 {
      AfterSame(t, quids, k - 1);
      var before := After(t, quids, k - 1);
      ApplyAllSame(PhaseAt(t, k - 1), KeysAt(t, k - 1), |KeysAt(t, k - 1)|, before);
      AllSameOn(quids, before, After(t, quids, k));
    } else {
      AllSameOn(quids, quids, quids);
    }
  }

  lemma {:induction false} AllSameOn(a: seq<Quid>, b: seq<Quid>, c: seq<Quid>)
    requires a == b == c || (AllSame(a, b) && AllSame(b, c))
    ensures AllSame(a, c)
  {
    if a != b || b != c {
      forall i | 0 <= i < |a| ensures Same(a[i], c[i]) {
        assert Same(a[i], b[i]) && Same(b[i], c[i]);
      }
    }
  }

  // ---- Ids

  /** The ids in use rise along the list and are not above the last one given. */
  ghost predicate Rising(s: State) {
    && (forall i, j :: 0 <= i < j < |s.quids| ==> s.quids[i].id < s.quids[j].id)
    && (forall i :: 0 <= i < |s.quids| ==> s.quids[i].id <= s.lastId)
  }

  /** How many of the first n entries name a kind there is. */
  function KnownKinds(kinds: Kinds, quiddities: Tree, n: nat): nat
    requires n <= |quiddities.kids|
  {
    if n == 0 then 0
    else
      var kind := TextOf(GetValue(quiddities, quiddities.kids[n - 1].0));
      KnownKinds(kinds, quiddities, n - 1) + if kind in kinds then 1 else 0
  }

  /** The quiddities of s are there, the others have newer ids. */
  ghost predicate Continues(s: State, t: State) {
    && s.lastId <= t.lastId && t.atReset == s.atReset && |s.quids| <= |t.quids|
    && (forall i :: 0 <= i < |s.quids| ==> Same(s.quids[i], t.quids[i]))
    && (forall i :: |s.quids| <= i < |t.quids| ==> t.quids[i].id > s.lastId)
  }

  lemma {:induction false} CreateContinues(kinds: Kinds, s: State, kind: string, nick: string)
    requires Rising(s)
    ensures var t := AfterCreate(kinds, s, kind, nick);
      Rising(t) && Continues(s, t) && t.lastId == s.lastId + if kind in kinds then 1 else 0
  {
    AllSameOn(s.quids, s.quids, s.quids);
  }

  lemma {:induction false} CreateAllContinues(kinds: Kinds, s: State, quiddities: Tree, n: nat)
    requires Rising(s) && n <= |quiddities.kids|
    ensures var t := CreateAll(kinds, s, quiddities, n);
      Rising(t) && Continues(s, t) && t.lastId == s.lastId + KnownKinds(kinds, quiddities, n)
  {
    hide AfterCreate, GetValue, Same;
    if n > 0 {
      CreateAllContinues(kinds, s, quiddities, n - 1);
      var before, key := CreateAll(kinds, s, quiddities, n - 1), quiddities.kids[n - 1].0;
      CreateContinues(kinds, before, TextOf(GetValue(quiddities, key)), key);
      ContinuesOn(s, before, CreateAll(kinds, s, quiddities, n));
    } else {
      AllSameOn(s.quids, s.quids, s.quids);
    }
  }

  lemma {:induction false} ContinuesOn(s: State, t: State, u: State)
    requires Continues(s, t) && Continues(t, u)
    ensures Continues(s, u)
  {
    forall i | 0 <= i < |s.quids| ensures Same(s.quids[i], u.quids[i]) {
      assert Same(s.quids[i], t.quids[i]) && Same(t.quids[i], u.quids[i]);
    }
    forall i | |s.quids| <= i < |u.quids| ensures u.quids[i].id > s.lastId {
      if i < |t.quids| {
        assert Same(t.quids[i], u.quids[i]);
      }
    }
  }

  /** Whatever the tree, a load keeps every quiddity there was, with its id, kind and the values of what is not
      writable; it gives new ids to what it creates, one for each entry of a known kind. */
  lemma {:induction false} LoadContinues(kinds: Kinds, s: State, t: Tree)
    requires Rising(s)
    ensures var after, quiddities := AfterLoad(kinds, s, t), GetTree(t, ".quiddities");
      && Rising(after) && Continues(s, after)
      && after.lastId == s.lastId + KnownKinds(kinds, quiddities, |quiddities.kids|)
  {
    hide CreateAll, After, GetTree;
    var quiddities := GetTree(t, ".quiddities");
    var made := CreateAll(kinds, s, quiddities, |quiddities.kids|);
    CreateAllContinues(kinds, s, quiddities, |quiddities.kids|);
    AfterSame(t, made.quids, PHASES);
    SameContinues(made, AfterLoad(kinds, s, t));
    ContinuesOn(s, made, AfterLoad(kinds, s, t));
  }

  lemma {:induction false} SameContinues(s: State, t: State)
    requires Rising(s) && t.lastId == s.lastId && t.atReset == s.atReset && AllSame(s.quids, t.quids)
    ensures Rising(t) && Continues(s, t)
  {
    assert forall i :: 0 <= i < |s.quids| ==> Same(s.quids[i], t.quids[i]);
  }

  // ---- One quiddity removed or changed

  lemma {:induction false} FoundById(s: State, i: nat)
    requires Rising(s) && i < |s.quids|
    ensures FindId(s.quids, s.quids[i].id) == i
  {
  }

  lemma {:induction false} RemoveRises(s: State, id: nat)
    requires Rising(s)
    ensures var after := AfterRemove(s, id);
      && Rising(after) && after.lastId == s.lastId && after.atReset == s.atReset
  {
  }

  /** A removal takes out the quiddity with the id and no other. */
  lemma {:induction false} RemoveTakesOne(s: State, id: nat, q: Quid)
    requires Rising(s)
    ensures q in AfterRemove(s, id).quids <==> q in s.quids && q.id != id
  {
    var after, i := AfterRemove(s, id), FindId(s.quids, id);
    if i < |s.quids| {
      RemovedAre(s.quids, i, q);
      NotAmong(s, i, q);
    } else if q in s.quids {
      var k :| 0 <= k < |s.quids| && s.quids[k] == q;
    }
  }

  lemma {:induction false} RemovedAre(quids: seq<Quid>, i: nat, q: Quid)
    requires i < |quids|
    ensures q in quids <==> q == quids[i] || q in quids[..i] + quids[i + 1..]
  {
    assert quids == quids[..i] + ([quids[i]] + quids[i + 1..]);
  }

  lemma {:induction false} NotAmong(s: State, i: nat, q: Quid)
    requires Rising(s) && i < |s.quids|
    ensures q in s.quids[..i] + s.quids[i + 1..] ==> q.id != s.quids[i].id
  {
    var left := s.quids[..i] + s.quids[i + 1..];
    if q in left {
      var k :| 0 <= k < |left| && left[k] == q;
      assert q == s.quids[if k < i then k else k + 1];
    }
  }

  /** A change is made on the quiddity with the id and on no other. */
  lemma {:induction false} ChangeTakesOne(s: State, id: nat, c: Change, k: nat)
    requires Rising(s) && k < |s.quids|
    ensures var after := AfterChange(s, id, c);
      && |after.quids| == |s.quids| && after.lastId == s.lastId && after.atReset == s.atReset
      && (s.quids[k].id != id ==> after.quids[k] == s.quids[k])
      && (s.quids[k].id == id ==> after.quids[k] == Changed(s.quids[k], c))
  {
    FoundById(s, k);
  }

  lemma {:induction false} ChangedIsSame(q: Quid, c: Change)
    ensures Same(q, Changed(q, c))
  {
    match c
    case SetProperty(name, text) => SetPropSame(q, name, text);
    case _ =>
  }

  lemma {:induction false} ChangeContinues(s: State, id: nat, c: Change)
    requires Rising(s)
    ensures Rising(AfterChange(s, id, c)) && Continues(s, AfterChange(s, id, c))
  {
    hide Changed;
    var after := AfterChange(s, id, c);
    forall k | 0 <= k < |s.quids| ensures Same(s.quids[k], after.quids[k]) {
      ChangeTakesOne(s, id, c, k);
      ChangedIsSame(s.quids[k], c);
      AllSameOn(s.quids, s.quids, s.quids);
    }
    assert |after.quids| == |s.quids|;
    SameContinues(s, after);
  }

  // ---- Runs

  datatype Act = Plain(op: Op) | Load(tree: Tree)

  function Acted(kinds: Kinds, s: State, a: Act): State {
    match a
    case Plain(op) => Do(kinds, s, op)
    case Load(t) => AfterLoad(kinds, s, t)
  }

  function Run(kinds: Kinds, s: State, acts: seq<Act>): State
    decreases acts
  {
    if acts == [] then s else Run(kinds, Acted(kinds, s, acts[0]), acts[1..])
  }

  /** How many ids an act uses up, failed creations included. */
  function IdsUsed(kinds: Kinds, s: State, a: Act): nat {
    match a
    case Plain(Create(kind, _)) => if kind in kinds then 1 else 0
    case Plain(Trip) =>
      var quiddities := GetTree(Saved(s), ".quiddities");
      KnownKinds(kinds, quiddities, |quiddities.kids|)
    case Load(t) =>
      var quiddities := GetTree(t, ".quiddities");
      KnownKinds(kinds, quiddities, |quiddities.kids|)
    case _ => 0
  }

  function AllIdsUsed(kinds: Kinds, s: State, acts: seq<Act>): nat
    decreases acts
  {
    if acts == [] then 0 else IdsUsed(kinds, s, acts[0]) + AllIdsUsed(kinds, Acted(kinds, s, acts[0]), acts[1..])
  }

  /** An id that had been given out before still names the quiddity it named then. */
  ghost predicate SameNames(s: State, t: State) {
    s.lastId <= t.lastId && forall q :: q in t.quids && q.id <= s.lastId ==> Remembered(s, q)
  }

  ghost predicate Remembered(s: State, q: Quid) {
    exists p :: p in s.quids && Same(p, q)
  }

  lemma {:induction false} ContinuesNames(s: State, t: State)
    requires Continues(s, t)
    ensures SameNames(s, t)
  {
    forall q | q in t.quids && q.id <= s.lastId ensures Remembered(s, q) {
      var i :| 0 <= i < |t.quids| && t.quids[i] == q;
      assert s.quids[i] in s.quids && Same(s.quids[i], q);
    }
  }

  lemma {:induction false} FewerNames(s: State, t: State)
    requires s.lastId <= t.lastId && forall q :: q in t.quids ==> q in s.quids
    ensures SameNames(s, t)
  {
    forall q | q in t.quids && q.id <= s.lastId ensures Remembered(s, q) {
      AllSameOn([q], [q], [q]);
      assert Same([q][0], [q][0]);
    }
  }

  lemma {:induction false} NamesOn(s: State, t: State, u: State)
    requires SameNames(s, t) && SameNames(t, u)
    ensures SameNames(s, u)
  {
    forall q | q in u.quids && q.id <= s.lastId ensures Remembered(s, q) {
      assert Remembered(t, q);
      var p :| p in t.quids && Same(p, q);
      assert Remembered(s, p);
      var o :| o in s.quids && Same(o, p);
      assert Same(o, q);
    }
  }

  lemma {:induction false} ResetRises(s: State, remove: bool)
    requires Rising(s)
    ensures var t := AfterReset(s, remove);
      && Rising(t) && t.lastId == s.lastId && SameNames(s, t)
      && (forall q :: q in t.quids <==> q in s.quids && (remove ==> q.id in s.atReset))
      && (forall id :: id in t.atReset <==> exists q :: q in t.quids && q.id == id)
  {
    var t := AfterReset(s, remove);
    if remove {
      KeptRises(s.quids, s.atReset);
    }
    assert forall q :: q in t.quids <==> q in s.quids && (remove ==> q.id in s.atReset);
    forall i | 0 <= i < |t.quids| ensures t.quids[i].id <= s.lastId {
      assert t.quids[i] in t.quids && t.quids[i] in s.quids;
    }
    FewerNames(s, t);
    forall id ensures id in t.atReset <==> exists q :: q in t.quids && q.id == id {
      IdsAre(t.quids, id);
    }
  }

  lemma {:induction false} IdsAre(quids: seq<Quid>, id: nat)
    ensures id in IdsOf(quids) <==> exists q :: q in quids && q.id == id
  {
    if id in IdsOf(quids) {
      var k :| 0 <= k < |quids| && IdsOf(quids)[k] == id;
      assert quids[k] in quids;
    }
    if q :| q in quids && q.id == id {
      var k :| 0 <= k < |quids| && quids[k] == q;
      assert IdsOf(quids)[k] == id;
    }
  }

  lemma {:induction false} KeptRises(quids: seq<Quid>, atReset: seq<nat>)
    requires forall i, j :: 0 <= i < j < |quids| ==> quids[i].id < quids[j].id
    ensures var kept := KeptAtReset(quids, atReset);
      && (forall q :: q in kept <==> q in quids && q.id in atReset)
      && (forall i, j :: 0 <= i < j < |kept| ==> kept[i].id < kept[j].id)
    decreases |quids|
  {
    if quids != [] {
      var n := |quids| - 1;
      KeptRises(quids[..n], atReset);
      var before := KeptAtReset(quids[..n], atReset);
      assert quids == quids[..n] + [quids[n]];
      forall i | 0 <= i < |before| ensures before[i].id < quids[n].id {
        assert before[i] in before && before[i] in quids[..n];
      }
    }
  }

  lemma {:induction false} ActRises(kinds: Kinds, s: State, a: Act)
    requires Rising(s)
    ensures var t := Acted(kinds, s, a);
      Rising(t) && SameNames(s, t) && t.lastId == s.lastId + IdsUsed(kinds, s, a)
  {
    hide AfterCreate, AfterRemove, AfterChange, AfterReset, AfterLoad, Saved, GetTree, Rising, SameNames, Continues;
    hide KnownKinds;
    var t := Acted(kinds, s, a);
    match a
    case Plain(Create(kind, nick)) =>
      CreateContinues(kinds, s, kind, nick);
      ContinuesNames(s, t);
    case Plain(Remove(id)) =>
      RemoveRises(s, id);
      RemoveNames(s, id);
    case Plain(Change(id, c)) =>
      ChangeContinues(s, id, c);
      ContinuesNames(s, t);
      ChangeUsesNoId(s, id, c);
    case Plain(Reset(remove)) => ResetRises(s, remove);
    case Plain(Trip) =>
      ResetRises(s, true);
      LoadContinues(kinds, AfterReset(s, true), Saved(s));
      ContinuesNames(AfterReset(s, true), t);
      NamesOn(s, AfterReset(s, true), t);
    case Load(tree) =>
      LoadContinues(kinds, s, tree);
      ContinuesNames(s, t);
  }

  lemma {:induction false} ChangeUsesNoId(s: State, id: nat, c: Change)
    ensures AfterChange(s, id, c).lastId == s.lastId
  {
  }

  lemma {:induction false} RemoveNames(s: State, id: nat)
    requires Rising(s)
    ensures SameNames(s, AfterRemove(s, id))
  {
    hide AfterRemove, Rising;
    var t := AfterRemove(s, id);
    RemoveRises(s, id);
    forall q | q in t.quids ensures q in s.quids {
      RemoveTakesOne(s, id, q);
    }
    FewerNames(s, t);
  }

  /** In every run, with removals, resets and loads of any trees: ids in use are different and none is given twice, so
      that an id names the same quiddity for good; and the last id counts the attempts to create a known kind. */
  lemma {:induction false} IdsAreNeverReused(kinds: Kinds, s: State, acts: seq<Act>)
    requires Rising(s)
    ensures var t := Run(kinds, s, acts);
      Rising(t) && SameNames(s, t) && t.lastId == s.lastId + AllIdsUsed(kinds, s, acts)
    decreases acts
  {
    hide Acted, Rising, SameNames, IdsUsed;
    if acts == [] {
      FewerNames(s, s);
    } else {
      ActRises(kinds, s, acts[0]);
      var t := Acted(kinds, s, acts[0]);
      IdsAreNeverReused(kinds, t, acts[1..]);
      NamesOn(s, t, Run(kinds, t, acts[1..]));
    }
  }

  // ---- What a reset remembers

  predicate ResetFree(acts: seq<Act>) {
    forall a :: a in acts ==> a.Load? || a.op.Create? || a.op.Remove? || a.op.Change?
  }

  lemma {:induction false} AtResetStays(kinds: Kinds, s: State, acts: seq<Act>)
    requires ResetFree(acts)
    ensures Run(kinds, s, acts).atReset == s.atReset
    decreases acts
  {
    hide AfterCreate, AfterRemove, AfterChange, AfterLoad;
    if acts != [] {
      assert acts[0] in acts;
      assert ResetFree(acts[1..]);
      ActKeepsAtReset(kinds, s, acts[0]);
      AtResetStays(kinds, Acted(kinds, s, acts[0]), acts[1..]);
    }
  }

  lemma {:induction false} ActKeepsAtReset(kinds: Kinds, s: State, a: Act)
    requires ResetFree([a])
    ensures Acted(kinds, s, a).atReset == s.atReset
  {
    hide Find, FindId, After, CreateAll, Changed, GetTree;
    assert a in [a];
    match a
    case Load(t) =>
      var quiddities := GetTree(t, ".quiddities");
      CreateAllKeepsAtReset(kinds, s, quiddities, |quiddities.kids|);
    case _ =>
  }

  lemma {:induction false} CreateAllKeepsAtReset(kinds: Kinds, s: State, quiddities: Tree, n: nat)
    requires n <= |quiddities.kids|
    ensures CreateAll(kinds, s, quiddities, n).atReset == s.atReset
  {
    hide GetValue;
    if n > 0 {
      CreateAllKeepsAtReset(kinds, s, quiddities, n - 1);
    }
  }

  /** A reset, whether or not it removes anything, then any creations, removals, changes and loads, then a reset that
      removes: what is left is exactly what was there after the first reset, with the same ids and kinds, but for
      what was removed since. */
  lemma {:induction false} ResetComesBack(kinds: Kinds, s: State, remove: bool, acts: seq<Act>, q: Quid)
    requires Rising(s) && ResetFree(acts)
    ensures var first := AfterReset(s, remove);
      var t := Run(kinds, first, acts);
      && (q in AfterReset(t, true).quids <==> q in t.quids && exists p :: p in first.quids && p.id == q.id)
      && (q in AfterReset(t, true).quids ==> Remembered(first, q))
  {
    hide AfterReset, Run, Rising, Same;
    var first := AfterReset(s, remove);
    var t := Run(kinds, first, acts);
    ResetRises(s, remove);
    IdsAreNeverReused(kinds, first, acts);
    AtResetStays(kinds, first, acts);
    ResetRises(t, true);
    if q in t.quids && exists p :: p in first.quids && p.id == q.id {
      var p :| p in first.quids && p.id == q.id;
      IdsInRange(first, p);
    }
  }

  lemma {:induction false} IdsInRange(s: State, q: Quid)
    requires Rising(s) && q in s.quids
    ensures q.id <= s.lastId
  {
    var i :| 0 <= i < |s.quids| && s.quids[i] == q;
  }

  // ---- What is changed is saved

  lemma {:induction false} SavedValue(kinds: Kinds, s: State, i: nat, j: nat)
    requires Valid(kinds, s) && i < |s.quids| && j < |s.quids[i].props|
    requires s.quids[i].props[j].writable && s.quids[i].props[j].saved
    ensures var q := s.quids[i];
      GetValue(GetTree(Saved(s), ".properties"), q.nick + "." + q.props[j].name) == Some(q.props[j].value)
  {
    hide Saved, SaveAll, GetTree, GetValue, Entries, SavedProps;
    var fs, q := AllFacts(s), s.quids[i];
    AllFactsAreGood(kinds, s);
    SavedIs(s);
    Sections(fs);
    assert GoodQuid(kinds, s, q);
    SavedPropsAre(q.props);
    var k :| 0 <= k < |fs[i].props| && fs[i].props[k] == (q.props[j].name, q.props[j].value);
    ValuesOf(fs, i, k);
  }

  /** A value that is set is the one that is saved next; the other quiddities are saved as before. */
  lemma {:induction false} SavesWhatIsSet(kinds: Kinds, s: State, i: nat, j: nat, v: Val)
    requires Valid(kinds, s) && Rising(s) && i < |s.quids| && j < |s.quids[i].props|
    requires s.quids[i].props[j].writable && s.quids[i].props[j].saved
    requires v.Bool? == s.quids[i].props[j].value.Bool?
    ensures var q := s.quids[i];
      var text := if v.Text? then v.text else if v.b then "true" else "false";
      var after := AfterChange(s, q.id, SetProperty(q.props[j].name, text));
      && GetValue(GetTree(Saved(after), ".properties"), q.nick + "." + q.props[j].name) == Some(v)
      && |AllFacts(after)| == |AllFacts(s)|
      && forall k :: 0 <= k < |s.quids| && k != i ==> AllFacts(after)[k] == AllFacts(s)[k]
  {
    hide Saved, SetProp, GetTree, GetValue, SavedProps;
    var q := s.quids[i];
    var text := if v.Text? then v.text else if v.b then "true" else "false";
    var c := SetProperty(q.props[j].name, text);
    var after := AfterChange(s, q.id, c);
    assert GoodQuid(kinds, s, q);
    FoundById(s, i);
    ChangeKeepsValidIff(kinds, s, q.id, c);
    SetPropIs(q, q.props[j].name, text, j);
    SavedValue(kinds, after, i, j);
  }

  /** A tree that is grafted into the user data is in the next save, at its place. */
  lemma {:induction false} SavesWhatIsGrafted(kinds: Kinds, s: State, i: nat, path: string, t: Tree)
    requires Valid(kinds, s) && Rising(s) && i < |s.quids| && Keys(path) != []
    ensures var q := s.quids[i];
      var after := AfterChange(s, q.id, GraftUserData(path, t));
      && Sub(Sub(GetTree(Saved(after), "userdata."), [q.nick]), Keys(path)) == t
      && |AllFacts(after)| == |AllFacts(s)|
      && forall k :: 0 <= k < |s.quids| && k != i ==> AllFacts(after)[k] == AllFacts(s)[k]
  {
    hide Saved, SaveAll, GetTree, Sub, Put, Entries, Keys, SavedProps;
    var q := s.quids[i];
    var c := GraftUserData(path, t);
    var after := AfterChange(s, q.id, c);
    FoundById(s, i);
    ChangeKeepsValidIff(kinds, s, q.id, c);
    AllFactsAreGood(kinds, after);
    SavedIs(after);
    var fs := AllFacts(after);
    Sections(fs);
    EntryAt(DataPart, fs, i);
    NothingIsEmpty(fs[i]);
    SubOfPut(q.userData, Keys(path), t);
  }
}
