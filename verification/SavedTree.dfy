/** What the tree of a saved state holds, section by section. */
module SavedTree {
  import opened InfoTree
  import opened Switcher

  datatype Part = CustomPart | KindPart | NickPart | DataPart | PropPart

  function Name(p: Part): string {
    match p
    case CustomPart => "custom_states"
    case KindPart => "quiddities"
    case NickPart => "nicknames"
    case DataPart => "userdata"
    case PropPart => "properties"
  }

  function PropKids(props: seq<(string, Val)>): seq<(string, Tree)> {
    seq(|props|, i requires 0 <= i < |props| => (props[i].0, Leaf(props[i].1)))
  }

  /** What a section holds of a quiddity, if anything. */
  function Entry(p: Part, f: Facts): Option<Tree> {
    match p
    case CustomPart => if f.custom.IsEmpty() then None else Some(f.custom)
    case KindPart => if f.kind == None then None else Some(Leaf(Text(f.kind.value)))
    case NickPart => if f.kind == None then None else Some(Leaf(Text(f.nick)))
    case DataPart => if f.userData.IsEmpty() then None else Some(f.userData)
    case PropPart => if f.props == [] then None else Some(Tree(None, PropKids(f.props)))
  }

  function EntryList(p: Part, f: Facts): seq<(string, Tree)> {
    match Entry(p, f)
    case None => []
    case Some(t) => [(f.nick, t)]
  }

  function Entries(p: Part, fs: seq<Facts>): seq<(string, Tree)> {
    if fs == [] then [] else Entries(p, fs[..|fs| - 1]) + EntryList(p, fs[|fs| - 1])
  }

  ghost predicate GoodNames(f: Facts) {
    && IsKey(f.nick)
    && (forall i :: 0 <= i < |f.props| ==> IsKey(f.props[i].0))
    && (forall i, j :: 0 <= i < j < |f.props| ==> f.props[i].0 != f.props[j].0)
  }

  ghost predicate Good(fs: seq<Facts>) {
    && (forall i :: 0 <= i < |fs| ==> GoodNames(fs[i]))
    && (forall i, j :: 0 <= i < j < |fs| ==> fs[i].nick != fs[j].nick)
  }

  // ---- One graft

  lemma {:induction false} NamesAreKeys(p: Part)
    ensures IsKey(Name(p))
    ensures forall q: Part :: Name(p) == Name(q) ==> p == q
  {
  }

  lemma {:induction false} GraftInPart(t: Tree, p: Part, nick: string, leaf: Tree, q: Part)
    ensures Sub(Graft(t, "." + Name(p) + "." + nick, leaf), [Name(q)]) ==
      if p == q then Put(Sub(t, [Name(p)]), Keys(nick), leaf) else Sub(t, [Name(q)])
  {
    hide Put, Sub;
    NamesAreKeys(p);
    KeysOfPath(Name(p), nick);
    ChildOfPut(t, Name(p), Keys(nick), leaf, Name(q));
  }

  lemma {:induction false} GraftProperty(t: Tree, nick: string, prop: string, leaf: Tree, q: Part)
    ensures Sub(Graft(t, ".properties." + nick + "." + prop, leaf), [Name(q)]) ==
      if q == PropPart then Put(Sub(t, ["properties"]), Keys(nick) + Keys(prop), leaf) else Sub(t, [Name(q)])
  {
    hide Keys, Put, Sub;
    PropertyPath(nick, prop);
    ChildOfPut(t, "properties", Keys(nick) + Keys(prop), leaf, Name(q));
  }

  lemma {:induction false} PropertyPath(nick: string, prop: string)
    ensures Keys(".properties." + nick + "." + prop) == ["properties"] + (Keys(nick) + Keys(prop))
  {
    hide Keys;
    NamesAreKeys(PropPart);
    assert ".properties." + nick + "." + prop == "." + "properties" + "." + (nick + "." + prop);
    KeysOfPath("properties", nick + "." + prop);
    KeysOfJoin(nick, prop);
  }

  // ---- One quiddity

  function WithKid(t: Tree, nick: string, e: Option<Tree>): Tree {
    if e == None then t else t.(kids := t.kids + [(nick, e.value)])
  }

  lemma {:induction false} PropKidsGrow(props: seq<(string, Val)>)
    requires props != []
    requires forall i, j :: 0 <= i < j < |props| ==> props[i].0 != props[j].0
    ensures var n := |props| - 1;
      Put(Tree(None, PropKids(props[..n])), [props[n].0], Leaf(props[n].1)) == Tree(None, PropKids(props))
  {
    var n := |props| - 1;
    var before := PropKids(props[..n]);
    assert forall i :: 0 <= i < n ==> before[i].0 == props[i].0;
    PutNew(Tree(None, before), props[n].0, Leaf(props[n].1));
    assert PropKids(props) == before + [(props[n].0, Leaf(props[n].1))];
  }

  lemma {:induction false} PutInLast(t: Tree, nick: string, kid: Tree, prop: string, leaf: Tree)
    requires IndexOf(t.kids, nick) == |t.kids|
    ensures Put(t.(kids := t.kids + [(nick, kid)]), [nick, prop], leaf) ==
      t.(kids := t.kids + [(nick, Put(kid, [prop], leaf))])
    ensures Put(t, [nick, prop], leaf) == t.(kids := t.kids + [(nick, Put(EMPTY, [prop], leaf))])
  {
    var kids := t.kids + [(nick, kid)];
    assert kids[|t.kids|].0 == nick;
    assert IndexOf(kids, nick) == |t.kids|;
    assert [nick, prop][1..] == [prop];
  }

  lemma {:induction false} SavePropsInPart(t: Tree, nick: string, props: seq<(string, Val)>, q: Part)
    requires IsKey(nick) && forall i :: 0 <= i < |props| ==> IsKey(props[i].0)
    requires forall i, j :: 0 <= i < j < |props| ==> props[i].0 != props[j].0
    requires IndexOf(Sub(t, ["properties"]).kids, nick) == |Sub(t, ["properties"]).kids|
    ensures Sub(SaveProps(t, nick, props), [Name(q)]) ==
      if q == PropPart && props != [] then WithKid(Sub(t, ["properties"]), nick, Some(Tree(None, PropKids(props))))
      else Sub(t, [Name(q)])
    decreases |props|
  {
    if props != [] {
      var n := |props| - 1;
      SavePropsInPart(t, nick, props[..n], q);
      SavePropsInPart(t, nick, props[..n], PropPart);
      GraftProperty(SaveProps(t, nick, props[..n]), nick, props[n].0, Leaf(props[n].1), q);
      KeysOfKey(nick);
      KeysOfKey(props[n].0);
      PropKidsGrow(props);
      PutInLast(Sub(t, ["properties"]), nick, Tree(None, PropKids(props[..n])), props[n].0, Leaf(props[n].1));
      if n == 0 {
        assert PropKids(props[..n]) == [];
      }
    }
  }

  /** Saving one more quiddity adds its entry to each section. */
  lemma {:induction false} SaveOneInPart(t: Tree, f: Facts, q: Part)
    requires GoodNames(f)
    requires forall p: Part :: IndexOf(Sub(t, [Name(p)]).kids, f.nick) == |Sub(t, [Name(p)]).kids|
    ensures Sub(SaveOne(t, f), [Name(q)]) == WithKid(Sub(t, [Name(q)]), f.nick, Entry(q, f))
  {
    hide Graft, IndexOf, Put, Sub;
    var t1 := GraftEntry(t, CustomPart, f);
    var t2 := GraftEntry(t1, KindPart, f);
    var t3 := GraftEntry(t2, NickPart, f);
    var t4 := GraftEntry(t3, DataPart, f);
    GraftEntryInPart(t, CustomPart, f, q);
    GraftEntryInPart(t, CustomPart, f, PropPart);
    GraftEntryInPart(t, CustomPart, f, DataPart);
    GraftEntryInPart(t, CustomPart, f, NickPart);
    GraftEntryInPart(t, CustomPart, f, KindPart);
    GraftEntryInPart(t1, KindPart, f, q);
    GraftEntryInPart(t1, KindPart, f, PropPart);
    GraftEntryInPart(t1, KindPart, f, DataPart);
    GraftEntryInPart(t1, KindPart, f, NickPart);
    GraftEntryInPart(t2, NickPart, f, q);
    GraftEntryInPart(t2, NickPart, f, PropPart);
    GraftEntryInPart(t2, NickPart, f, DataPart);
    GraftEntryInPart(t3, DataPart, f, q);
    GraftEntryInPart(t3, DataPart, f, PropPart);
    SavePropsInPart(t4, f.nick, f.props, q);
    SaveOneIs(t, f);
  }

  function GraftEntry(t: Tree, p: Part, f: Facts): Tree {
    match Entry(p, f)
    case None => t
    case Some(e) => Graft(t, "." + Name(p) + "." + f.nick, e)
  }

  lemma {:induction false} SaveOneIs(t: Tree, f: Facts)
    ensures SaveOne(t, f) ==
      SaveProps(GraftEntry(GraftEntry(GraftEntry(GraftEntry(t, CustomPart, f), KindPart, f), NickPart, f), DataPart, f),
                f.nick, f.props)
  {
    hide Graft;
    assert ".custom_states." + f.nick == "." + Name(CustomPart) + "." + f.nick;
    assert ".quiddities." + f.nick == "." + Name(KindPart) + "." + f.nick;
    assert ".nicknames." + f.nick == "." + Name(NickPart) + "." + f.nick;
    assert ".userdata." + f.nick == "." + Name(DataPart) + "." + f.nick;
  }

  lemma {:induction false} GraftEntryInPart(t: Tree, p: Part, f: Facts, q: Part)
    requires IsKey(f.nick)
    requires IndexOf(Sub(t, [Name(p)]).kids, f.nick) == |Sub(t, [Name(p)]).kids|
    ensures Sub(GraftEntry(t, p, f), [Name(q)]) ==
      if p == q then WithKid(Sub(t, [Name(p)]), f.nick, Entry(p, f)) else Sub(t, [Name(q)])
  {
    match Entry(p, f)
    case None =>
    case Some(e) =>
      GraftInPart(t, p, f.nick, e, q);
      KeysOfKey(f.nick);
      PutNew(Sub(t, [Name(p)]), f.nick, e);
  }

  // ---- All of them

  lemma {:induction false} KeysOfEntries(p: Part, fs: seq<Facts>, k: nat) returns (i: nat)
    requires k < |Entries(p, fs)|
    ensures i < |fs| && Entries(p, fs)[k].0 == fs[i].nick && Entry(p, fs[i]) == Some(Entries(p, fs)[k].1)
    decreases |fs|
  {
    var n := |fs| - 1;
    if k < |Entries(p, fs[..n])| {
      i := KeysOfEntries(p, fs[..n], k);
    } else {
      i := n;
    }
  }

  lemma {:induction false} NewNick(p: Part, fs: seq<Facts>, nick: string)
    requires forall i :: 0 <= i < |fs| ==> fs[i].nick != nick
    ensures IndexOf(Entries(p, fs), nick) == |Entries(p, fs)|
  {
    var k := IndexOf(Entries(p, fs), nick);
    if k < |Entries(p, fs)| {
      var i := KeysOfEntries(p, fs, k);
    }
  }

  /** A section holds exactly the entries of the quiddities, in their order. */
  lemma {:induction false} Section(fs: seq<Facts>, p: Part)
    requires Good(fs)
    ensures Sub(SaveAll(fs), [Name(p)]) == Tree(None, Entries(p, fs))
    decreases |fs|
  {
    hide Graft, SaveOne, Entry;
    if fs != [] {
      var n := |fs| - 1;
      forall q: Part ensures Sub(SaveAll(fs[..n]), [Name(q)]) == Tree(None, Entries(q, fs[..n])) {
        Section(fs[..n], q);
      }
      forall q: Part ensures IndexOf(Entries(q, fs[..n]), fs[n].nick) == |Entries(q, fs[..n])| {
        NewNick(q, fs[..n], fs[n].nick);
      }
      SaveOneInPart(SaveAll(fs[..n]), fs[n], p);
    }
  }

  function OrEmpty(e: Option<Tree>): Tree { if e == None then EMPTY else e.value }

  lemma {:induction false} IndexInSum(a: seq<(string, Tree)>, b: seq<(string, Tree)>, key: string)
    ensures IndexOf(a + b, key) == if IndexOf(a, key) < |a| then IndexOf(a, key) else |a| + IndexOf(b, key)
  {
    if a == [] {
      assert a + b == b;
    } else {
      assert (a + b)[1..] == a[1..] + b;
      IndexInSum(a[1..], b, key);
    }
  }

  /** Reading the entry of a quiddity. */
  lemma {:induction false} EntryAt(p: Part, fs: seq<Facts>, i: nat)
    requires Good(fs) && i < |fs|
    ensures Sub(Tree(None, Entries(p, fs)), [fs[i].nick]) == OrEmpty(Entry(p, fs[i]))
    ensures IndexOf(Entries(p, fs), fs[i].nick) < |Entries(p, fs)| <==> Entry(p, fs[i]).Some?
    decreases |fs|
  {
    hide Entry;
    var n := |fs| - 1;
    var nick := fs[i].nick;
    IndexInSum(Entries(p, fs[..n]), EntryList(p, fs[n]), nick);
    assert [nick][1..] == [];
    if i < n {
      EntryAt(p, fs[..n], i);
    } else {
      NewNick(p, fs[..n], nick);
    }
  }

  lemma {:induction false} EntriesAreProper(p: Part, fs: seq<Facts>)
    requires Good(fs)
    ensures Proper(Tree(None, Entries(p, fs)))
    decreases |fs|
  {
    if fs != [] {
      var n := |fs| - 1;
      EntriesAreProper(p, fs[..n]);
      NewNick(p, fs[..n], fs[n].nick);
    }
  }

  /** The key of a quiddity is in a section exactly when it has an entry there. */
  lemma {:induction false} KeyIff(p: Part, fs: seq<Facts>, i: nat)
    requires Good(fs) && i < |fs|
    ensures fs[i].nick in ChildKeys(Tree(None, Entries(p, fs))) <==> Entry(p, fs[i]).Some?
  {
    EntryAt(p, fs, i);
    var kids := Entries(p, fs);
    var k := IndexOf(kids, fs[i].nick);
    var keys := ChildKeys(Tree(None, kids));
    assert |keys| == |kids|;
    if k < |kids| {
      assert keys[k] == fs[i].nick;
    } else {
      assert forall j :: 0 <= j < |keys| ==> keys[j] == kids[j].0;
    }
  }

  /** The sections as a load reads them. */
  lemma {:induction false} Sections(fs: seq<Facts>)
    requires Good(fs)
    ensures GetTree(SaveAll(fs), ".quiddities") == Tree(None, Entries(KindPart, fs))
    ensures GetTree(SaveAll(fs), ".custom_states") == Tree(None, Entries(CustomPart, fs))
    ensures GetTree(SaveAll(fs), ".nicknames") == Tree(None, Entries(NickPart, fs))
    ensures GetTree(SaveAll(fs), ".properties") == Tree(None, Entries(PropPart, fs))
    ensures GetTree(SaveAll(fs), "userdata.") == Tree(None, Entries(DataPart, fs))
  {
    hide GetTree, SaveAll, Entries;
    SectionAt(fs, KindPart);
    SectionAt(fs, CustomPart);
    SectionAt(fs, NickPart);
    SectionAt(fs, PropPart);
    UserDataSection(fs);
    assert "." + Name(KindPart) == ".quiddities" && "." + Name(CustomPart) == ".custom_states";
    assert "." + Name(NickPart) == ".nicknames" && "." + Name(PropPart) == ".properties";
  }

  lemma {:induction false} SectionAt(fs: seq<Facts>, p: Part)
    requires Good(fs)
    ensures GetTree(SaveAll(fs), "." + Name(p)) == Tree(None, Entries(p, fs))
  {
    hide GetTree, SaveAll, Entries;
    PartPath(SaveAll(fs), p);
    Section(fs, p);
  }

  lemma {:induction false} PartPath(t: Tree, p: Part)
    ensures GetTree(t, "." + Name(p)) == Sub(t, [Name(p)])
  {
    hide Sub;
    NamesAreKeys(p);
    KeysOfKey(Name(p));
    assert |"." + Name(p)| > 2;
  }

  lemma {:induction false} UserDataSection(fs: seq<Facts>)
    requires Good(fs)
    ensures GetTree(SaveAll(fs), "userdata.") == Tree(None, Entries(DataPart, fs))
  {
    hide GetTree, SaveAll, Entries;
    UserDataPath(SaveAll(fs));
    Section(fs, DataPart);
  }

  lemma {:induction false} UserDataPath(t: Tree)
    ensures GetTree(t, "userdata.") == Sub(t, [Name(DataPart)])
  {
    hide Sub;
    NamesAreKeys(DataPart);
    KeysOfPath("userdata", "");
    var path := "userdata.";
    assert "userdata" + "." + "" == path && |path| > 2;
    assert Keys(path) == [Name(DataPart)];
  }
}
