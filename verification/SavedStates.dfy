/** Which states can be saved and loaded, and what goes wrong with the others. */
module SavedStates {
  import opened InfoTree
  import opened Switcher
  import opened SavedTree
  import opened UserData
  import opened RoundTrip
  import VersionText

  /** A loaded state can be saved again. */
  lemma {:induction false} LoadKeepsValid(kinds: Kinds, s: State, mid: State)
    requires Valid(kinds, s) && Drifted(AfterReset(s, true), mid)
    ensures Valid(kinds, AfterLoad(kinds, mid, Saved(s)))
  {
    hide AfterLoad, Saved, BackAs, GoodQuid, AfterReset, Drifted, Proper;
    var after := AfterLoad(kinds, mid, Saved(s));
    LoadGives(kinds, s, mid);
    forall i | 0 <= i < |s.quids|
      ensures GoodQuid(kinds, after, after.quids[i]) && after.quids[i].nick == s.quids[i].nick
      ensures after.quids[i].id in after.atReset <==> s.quids[i].id in s.atReset
    {
      assert BackAs(kinds, s, mid, after, i) && GoodQuid(kinds, s, s.quids[i]);
      FoundIsProper(s, mid, i);
      QuidIsGood(kinds, s, mid, after, i);
    }
    ResetIds(kinds, s, mid);
  }

  lemma {:induction false} ResetIds(kinds: Kinds, s: State, mid: State)
    requires Valid(kinds, s) && Drifted(AfterReset(s, true), mid)
    ensures forall id :: id in mid.atReset ==> id <= mid.lastId
  {
    var r := KeptIsPrefix(s.quids, s.atReset);
    forall id | id in mid.atReset ensures id <= mid.lastId {
      var k :| 0 <= k < r && s.quids[k].id == id;
      assert GoodQuid(kinds, s, s.quids[k]);
    }
  }

  lemma {:induction false} QuidIsGood(kinds: Kinds, s: State, mid: State, after: State, i: nat)
    requires i < |s.quids| == |after.quids| && BackAs(kinds, s, mid, after, i) && GoodQuid(kinds, s, s.quids[i])
    requires Proper(FoundData(mid, i))
    ensures GoodQuid(kinds, after, after.quids[i]) && after.quids[i].nick == s.quids[i].nick
    ensures after.quids[i].id in after.atReset <==> s.quids[i].id in s.atReset
  {
    hide CustomBack, SavedProps, Refilled, Proper;
    RefilledIsProper(FoundData(mid, i), s.quids[i].userData, after.quids[i].userData);
  }

  /** From the second trip on nothing changes any more, save for user data that cannot return: what a load has dropped
      or taken from the kinds is not there to be dropped or taken again. */
  lemma {:induction false} SecondTripIff(kinds: Kinds, s: State, mid: State, again: State)
    requires Valid(kinds, s) && Drifted(AfterReset(s, true), mid)
    requires Drifted(AfterReset(AfterLoad(kinds, mid, Saved(s)), true), again)
    ensures var after := AfterLoad(kinds, mid, Saved(s));
      && |again.quids| <= |after.quids|
      && (Saved(AfterLoad(kinds, again, Saved(after))) == Saved(after) <==>
        forall i :: 0 <= i < |again.quids| ==> CanReturn(again.quids[i].userData, after.quids[i].userData))
  {
    hide AfterLoad, Saved, CanReturn, BackAs;
    var after := AfterLoad(kinds, mid, Saved(s));
    LoadKeepsValid(kinds, s, mid);
    LoadGives(kinds, s, mid);
    RoundTripIff(kinds, after, again);
    var r := KeptIsPrefix(after.quids, after.atReset);
    forall i | 0 <= i < |after.quids|
      ensures CanComeBack(kinds, after, again, i) <==>
        (i < |again.quids| ==> CanReturn(again.quids[i].userData, after.quids[i].userData))
    {
      assert BackAs(kinds, s, mid, after, i) && GoodQuid(kinds, after, after.quids[i]);
      KeptAsBefore(kinds, s, mid, after, i);
      CanComeBackAgain(kinds, s, mid, after, again, i);
    }
  }

  /** In particular it is exact when the user data of the quiddities kept is left alone. */
  lemma {:induction false} SecondTripIsExact(kinds: Kinds, s: State, mid: State, again: State)
    requires Valid(kinds, s) && Drifted(AfterReset(s, true), mid)
    requires Drifted(AfterReset(AfterLoad(kinds, mid, Saved(s)), true), again)
    requires forall i :: 0 <= i < |again.quids| ==>
      again.quids[i].userData == AfterReset(AfterLoad(kinds, mid, Saved(s)), true).quids[i].userData
    ensures var after := AfterLoad(kinds, mid, Saved(s)); Saved(AfterLoad(kinds, again, Saved(after))) == Saved(after)
  {
    hide AfterLoad, Saved;
    var after := AfterLoad(kinds, mid, Saved(s));
    SecondTripIff(kinds, s, mid, again);
    LoadKeepsValid(kinds, s, mid);
    var r := KeptIsPrefix(after.quids, after.atReset);
  }

  lemma {:induction false} KeptAsBefore(kinds: Kinds, s: State, mid: State, after: State, i: nat)
    requires Valid(kinds, s) && Drifted(AfterReset(s, true), mid) && i < |s.quids| == |after.quids|
    requires BackAs(kinds, s, mid, after, i)
    ensures after.quids[i].id in after.atReset <==> i < |mid.quids|
  {
    hide Refilled, SavedProps;
    var r := KeptIsPrefix(s.quids, s.atReset);
  }

  lemma {:induction false} CanComeBackAgain(kinds: Kinds, s: State, mid: State, after: State, again: State, i: nat)
    requires i < |s.quids| == |after.quids| && BackAs(kinds, s, mid, after, i)
    requires after.quids[i].id in after.atReset <==> i < |mid.quids|
    requires after.quids[i].id in after.atReset <==> i < |again.quids|
    requires after.quids[i].id !in after.atReset ==> after.quids[i].kind in kinds
    ensures CanComeBack(kinds, after, again, i) <==>
      (i < |again.quids| ==> CanReturn(again.quids[i].userData, after.quids[i].userData))
  {
    hide SavedProps;
    assert ChildKeys(EMPTY) == [];
  }

  // ---- Operations

  ghost predicate GoodKinds(kinds: Kinds) {
    forall kind :: kind in kinds ==> GoodProps(kinds[kind].props)
  }

  /** The nickname of the next quiddity. */
  function NextNick(s: State, kind: string, nick: string): string {
    if nick == "" then kind + VersionText.Decimal(s.lastId + 1) else nick
  }

  /** Creating a quiddity keeps the state valid exactly when it fails, or the nickname is a key not in use. A
      nickname in use is refused only when the caller gives it. */
  lemma {:induction false} CreateKeepsValidIff(kinds: Kinds, s: State, kind: string, nick: string)
    requires Valid(kinds, s) && GoodKinds(kinds)
    ensures Valid(kinds, AfterCreate(kinds, s, kind, nick)) <==>
      || kind !in kinds
      || (nick != "" && Find(s.quids, nick) < |s.quids|)
      || (IsKey(NextNick(s, kind, nick)) && Find(s.quids, NextNick(s, kind, nick)) == |s.quids|)
  {
    hide IsKey;
    var after, n := AfterCreate(kinds, s, kind, nick), |s.quids|;
    forall i | 0 <= i < n ensures GoodQuid(kinds, s.(lastId := s.lastId + 1), s.quids[i]) {
      assert GoodQuid(kinds, s, s.quids[i]);
    }
    if |after.quids| > n {
      assert after.quids[n].nick == NextNick(s, kind, nick);
      forall i | 0 <= i < n ensures after.quids[i] == s.quids[i] {
      }
      assert Valid(kinds, after) ==> GoodQuid(kinds, after, after.quids[n]);
    }
  }

  lemma {:induction false} ResetKeepsValid(kinds: Kinds, s: State, remove: bool)
    requires Valid(kinds, s)
    ensures Valid(kinds, AfterReset(s, remove))
    ensures forall q :: q in AfterReset(s, remove).quids <==> q in s.quids && (remove ==> q.id in s.atReset)
  {
    var r := KeptIsPrefix(s.quids, s.atReset);
    var after := AfterReset(s, remove);
    forall i | 0 <= i < |after.quids|
      ensures GoodQuid(kinds, after, after.quids[i]) && after.quids[i].id in after.atReset
    {
      assert after.quids[i] == s.quids[i] && GoodQuid(kinds, s, s.quids[i]);
      assert IdsOf(after.quids)[i] == after.quids[i].id;
    }
  }

  lemma {:induction false} RemoveKeepsValid(kinds: Kinds, s: State, id: nat)
    requires Valid(kinds, s)
    ensures Valid(kinds, AfterRemove(s, id))
  {
    var after, i := AfterRemove(s, id), FindId(s.quids, id);
    if i < |s.quids| {
      forall j | 0 <= j < |after.quids| ensures GoodQuid(kinds, after, after.quids[j]) {
        var from := if j < i then j else j + 1;
        assert after.quids[j] == s.quids[from] && GoodQuid(kinds, s, s.quids[from]);
      }
    }
  }

  lemma {:induction false} ChangedIsGood(kinds: Kinds, s: State, q: Quid, c: Change)
    requires GoodQuid(kinds, s, q)
    ensures GoodQuid(kinds, s, Changed(q, c)) <==> (c.SetNickname? ==> IsKey(c.nick))
    ensures Changed(q, c).id == q.id && (!c.SetNickname? ==> Changed(q, c).nick == q.nick)
  {
    hide IsKey;
    match c
    case SetNickname(_) =>
    case SetProperty(name, text) =>
    case GraftUserData(path, tree) => GraftIsProper(q.userData, path, tree);
  }

  /** No other quiddity has the nickname. */
  ghost predicate FreeFor(quids: seq<Quid>, i: nat, nick: string) {
    forall j :: 0 <= j < |quids| && j != i ==> quids[j].nick != nick
  }

  /** Setting properties and grafting user data keep the state valid; a new nickname does exactly when it is a key that
      no other quiddity has. */
  lemma {:induction false} ChangeKeepsValidIff(kinds: Kinds, s: State, id: nat, c: Change)
    requires Valid(kinds, s)
    ensures var i := FindId(s.quids, id);
      Valid(kinds, AfterChange(s, id, c)) <==>
      i == |s.quids| || !c.SetNickname? || (IsKey(c.nick) && FreeFor(s.quids, i, c.nick))
  {
    hide IsKey, Changed, Valid, FreeFor;
    var i := FindId(s.quids, id);
    if i < |s.quids| {
      NewNickIs(s.quids[i], c);
      GoodAt(kinds, s, i);
      ChangedIsGood(kinds, s, s.quids[i], c);
      ReplaceKeepsValidIff(kinds, s, i, Changed(s.quids[i], c));
      FreeForItself(kinds, s, i);
    }
  }

  lemma {:induction false} GoodAt(kinds: Kinds, s: State, i: nat)
    requires Valid(kinds, s) && i < |s.quids|
    ensures GoodQuid(kinds, s, s.quids[i])
  {
  }

  lemma {:induction false} FreeForItself(kinds: Kinds, s: State, i: nat)
    requires Valid(kinds, s) && i < |s.quids|
    ensures FreeFor(s.quids, i, s.quids[i].nick)
  {
  }

  lemma {:induction false} ReplaceKeepsValidIff(kinds: Kinds, s: State, i: nat, q: Quid)
    requires Valid(kinds, s) && i < |s.quids| && q.id == s.quids[i].id
    ensures Valid(kinds, s.(quids := s.quids[i := q])) <==> GoodQuid(kinds, s, q) && FreeFor(s.quids, i, q.nick)
  {
    var after := s.(quids := s.quids[i := q]);
    assert forall r :: GoodQuid(kinds, after, r) <==> GoodQuid(kinds, s, r);
    assert forall j :: 0 <= j < |s.quids| ==> after.quids[j] == if j == i then q else s.quids[j];
    if Valid(kinds, after) {
      assert GoodQuid(kinds, after, after.quids[i]);
      forall j | 0 <= j < |s.quids| && j != i ensures s.quids[j].nick != q.nick {
        assert after.quids[j].nick != after.quids[i].nick;
      }
    } else if GoodQuid(kinds, s, q) && FreeFor(s.quids, i, q.nick) {
      ReplaceKeepsValid(kinds, s, i, q);
    }
  }

  lemma {:induction false} ReplaceKeepsValid(kinds: Kinds, s: State, i: nat, q: Quid)
    requires Valid(kinds, s) && i < |s.quids| && q.id == s.quids[i].id
    requires GoodQuid(kinds, s, q) && FreeFor(s.quids, i, q.nick)
    ensures Valid(kinds, s.(quids := s.quids[i := q]))
  {
    var after := s.(quids := s.quids[i := q]);
    assert forall r :: GoodQuid(kinds, after, r) <==> GoodQuid(kinds, s, r);
  }

  lemma {:induction false} NewNickIs(q: Quid, c: Change)
    ensures Changed(q, c).nick == if c.SetNickname? then c.nick else q.nick
  {
  }

  // ---- Runs

  datatype Op =
    | Create(kind: string, nick: string)
    | Remove(id: nat)
    | Change(id: nat, change: Change)
    | Reset(remove: bool)
    | Trip                        // save, reset and load

  function Do(kinds: Kinds, s: State, op: Op): State {
    match op
    case Create(kind, nick) => AfterCreate(kinds, s, kind, nick)
    case Remove(id) => AfterRemove(s, id)
    case Change(id, change) => AfterChange(s, id, change)
    case Reset(remove) => AfterReset(s, remove)
    case Trip => AfterLoad(kinds, AfterReset(s, true), Saved(s))
  }

  /** The nickname an operation gives is a key that no other quiddity has. */
  ghost predicate Named(kinds: Kinds, s: State, op: Op) {
    match op
    case Create(kind, nick) =>
      || kind !in kinds
      || (nick != "" && Find(s.quids, nick) < |s.quids|)
      || (IsKey(NextNick(s, kind, nick)) && Find(s.quids, NextNick(s, kind, nick)) == |s.quids|)
    case Change(id, SetNickname(nick)) =>
      var i := FindId(s.quids, id);
      i == |s.quids| || (IsKey(nick) && FreeFor(s.quids, i, nick))
    case _ => true
  }

  lemma {:induction false} DoKeepsValidIff(kinds: Kinds, s: State, op: Op)
    requires Valid(kinds, s) && GoodKinds(kinds)
    ensures Valid(kinds, Do(kinds, s, op)) <==> Named(kinds, s, op)
  {
    hide Valid, AfterCreate, AfterRemove, AfterChange, AfterReset, AfterLoad, Saved, IsKey, Find, NextNick;
    match op
    case Create(kind, nick) => CreateKeepsValidIff(kinds, s, kind, nick);
    case Remove(id) => RemoveKeepsValid(kinds, s, id);
    case Change(id, change) => ChangeKeepsValidIff(kinds, s, id, change);
    case Reset(remove) => ResetKeepsValid(kinds, s, remove);
    case Trip =>
      ResetKeepsValid(kinds, s, true);
      ResetDrifts(kinds, AfterReset(s, true));
      LoadKeepsValid(kinds, s, AfterReset(s, true));
  }

  lemma {:induction false} ResetDrifts(kinds: Kinds, s: State)
    requires Valid(kinds, s)
    ensures Drifted(s, s)
  {
    forall i | 0 <= i < |s.quids| ensures Proper(s.quids[i].userData) {
      assert GoodQuid(kinds, s, s.quids[i]);
    }
  }

  ghost predicate NamedRun(kinds: Kinds, s: State, ops: seq<Op>)
    decreases ops
  {
    ops == [] || (Named(kinds, s, ops[0]) && NamedRun(kinds, Do(kinds, s, ops[0]), ops[1..]))
  }

  ghost predicate StaysValid(kinds: Kinds, s: State, ops: seq<Op>)
    decreases ops
  {
    Valid(kinds, s) && (ops != [] ==> StaysValid(kinds, Do(kinds, s, ops[0]), ops[1..]))
  }

  /** A run from an empty switcher, trips included, leaves a state that can be saved and loaded at any time exactly when
      all nicknames it gives are keys not in use. */
  lemma {:induction false} RunsAreValid(kinds: Kinds, ops: seq<Op>)
    requires GoodKinds(kinds)
    ensures StaysValid(kinds, State([], 0, []), ops) <==> NamedRun(kinds, State([], 0, []), ops)
  {
    ValidAlong(kinds, State([], 0, []), ops);
  }

  lemma {:induction false} ValidAlong(kinds: Kinds, s: State, ops: seq<Op>)
    requires Valid(kinds, s) && GoodKinds(kinds)
    ensures StaysValid(kinds, s, ops) <==> NamedRun(kinds, s, ops)
    decreases ops
  {
    hide Valid, Do, Named, GoodKinds;
    if ops != [] {
      DoKeepsValidIff(kinds, s, ops[0]);
      if Named(kinds, s, ops[0]) {
        ValidAlong(kinds, Do(kinds, s, ops[0]), ops[1..]);
      }
    }
  }

  // ---- States that cannot be saved

  const PLAIN := Template([], EMPTY)

  /** A default nickname may be one that a caller has taken: two quiddities then share it. */
  lemma {:induction false} DefaultNicknameMayClash()
    ensures var kinds := map["d" := PLAIN];
      var one := AfterCreate(kinds, State([], 0, []), "d", "d2");
      var two := AfterCreate(kinds, one, "d", "");
      |two.quids| == 2 && two.quids[0].nick == two.quids[1].nick
  {
    assert VersionText.Decimal(2) == "2";
    assert "d" + "2" == "d2";
  }

  /** Two valid states that do not come back: a quiddity that has emptied the custom tree its kind starts with, and one
      with a value at the root of its user data. */
  lemma {:induction false} NotAllComeBack()
    ensures var kinds := map["d" := Template([], Tree(None, [("x", EMPTY)]))];
      var emptied := State([Quid(1, "d", "n", [], EMPTY, EMPTY)], 1, []);
      var rooted := State([Quid(1, "d", "n", [], Leaf(Text("v")), Tree(None, [("x", EMPTY)]))], 1, []);
      && Valid(kinds, emptied) && Valid(kinds, rooted)
      && Saved(AfterLoad(kinds, AfterReset(emptied, true), Saved(emptied))) != Saved(emptied)
      && Saved(AfterLoad(kinds, AfterReset(rooted, true), Saved(rooted))) != Saved(rooted)
  {
    hide Saved, AfterLoad;
    var kinds := map["d" := Template([], Tree(None, [("x", EMPTY)]))];
    var emptied := State([Quid(1, "d", "n", [], EMPTY, EMPTY)], 1, []);
    var rooted := State([Quid(1, "d", "n", [], Leaf(Text("v")), Tree(None, [("x", EMPTY)]))], 1, []);
    assert IsKey("n");
    assert GoodQuid(kinds, emptied, emptied.quids[0]) && GoodQuid(kinds, rooted, rooted.quids[0]);
    LoneComesBackIff(kinds, emptied);
    LoneComesBackIff(kinds, rooted);
  }

  lemma {:induction false} LoneComesBackIff(kinds: Kinds, s: State)
    requires Valid(kinds, s) && |s.quids| == 1 && s.atReset == [] && s.quids[0].kind in kinds
    ensures var q := s.quids[0];
      Saved(AfterLoad(kinds, AfterReset(s, true), Saved(s))) == Saved(s) <==>
        (q.custom.IsEmpty() ==> kinds[q.kind].custom.IsEmpty()) && q.userData.data == None
  {
    hide Saved, AfterLoad, GoodQuid;
    var mid := AfterReset(s, true);
    ResetKeepsValid(kinds, s, true);
    ResetDrifts(kinds, mid);
    RoundTripIff(kinds, s, mid);
    assert s.quids[..0] == [] && KeptAtReset(s.quids[..0], []) == [];
    assert mid.quids == [];
    assert CanComeBack(kinds, s, mid, 0) <==>
      (s.quids[0].custom.IsEmpty() ==> kinds[s.quids[0].kind].custom.IsEmpty()) && s.quids[0].userData.data == None;
  }
}
