/** Saving, resetting and loading the state of a switcher (switcher/switcher.cpp). */
module Switcher {
  import opened InfoTree
  import VersionText

  /** A property; its setter accepts every value of its type. */
  datatype Prop = Prop(name: string, value: Val, writable: bool, saved: bool)

  /** The custom tree is what on_saving returns. */
  datatype Quid = Quid(id: nat, kind: string, nick: string, props: seq<Prop>, userData: Tree, custom: Tree)

  /** What a new quiddity of a kind holds. */
  datatype Template = Template(props: seq<Prop>, custom: Tree)

  type Kinds = map<string, Template>

  datatype State = State(quids: seq<Quid>, lastId: nat, atReset: seq<nat>)

  /** The first quiddity with a nickname, |quids| when there is none. */
  function Find(quids: seq<Quid>, nick: string): (i: nat)
    ensures i <= |quids|
    ensures i < |quids| ==> quids[i].nick == nick
    ensures forall j :: 0 <= j < i ==> quids[j].nick != nick
  {
    if quids == [] || quids[0].nick == nick then 0 else 1 + Find(quids[1..], nick)
  }

  // ---- Creating and resetting

  /** Fails for an unknown kind, or for a nickname in use (the id is then lost). */
  function AfterCreate(kinds: Kinds, s: State, kind: string, nick: string): State {
    if kind !in kinds then s
    else if nick != "" && Find(s.quids, nick) < |s.quids| then s.(lastId := s.lastId + 1)
    else
      var id := s.lastId + 1;
      var name := if nick == "" then kind + VersionText.Decimal(id) else nick;
      s.(lastId := id, quids := s.quids + [Quid(id, kind, name, kinds[kind].props, EMPTY, kinds[kind].custom)])
  }

  function IdsOf(quids: seq<Quid>): seq<nat> {
    seq(|quids|, i requires 0 <= i < |quids| => quids[i].id)
  }

  function KeptAtReset(quids: seq<Quid>, atReset: seq<nat>): seq<Quid> {
    if quids == [] then []
    else
      var n := |quids| - 1;
      KeptAtReset(quids[..n], atReset) + if quids[n].id in atReset then [quids[n]] else []
  }

  function AfterReset(s: State, remove: bool): State {
    var quids := if remove then KeptAtReset(s.quids, s.atReset) else s.quids;
    s.(quids := quids, atReset := IdsOf(quids))
  }

  // ---- Changing one quiddity

  /** The position of an id, |quids| when no quiddity has it. */
  function FindId(quids: seq<Quid>, id: nat): (i: nat)
    ensures i <= |quids|
    ensures i < |quids| ==> quids[i].id == id
    ensures forall j :: 0 <= j < i ==> quids[j].id != id
  {
    if quids == [] || quids[0].id == id then 0 else 1 + FindId(quids[1..], id)
  }

  function AfterRemove(s: State, id: nat): State {
    var i := FindId(s.quids, id);
    if i == |s.quids| then s else s.(quids := s.quids[..i] + s.quids[i + 1..])
  }

  datatype Change =
    | SetNickname(nick: string)
    | SetProperty(name: string, text: string)
    | GraftUserData(path: string, tree: Tree)

  /** A nickname is not compared with the others. */
  function Changed(q: Quid, c: Change): Quid {
    match c
    case SetNickname(nick) => q.(nick := nick)
    case SetProperty(name, text) => SetProp(q, name, text)
    case GraftUserData(path, tree) => q.(userData := Graft(q.userData, path, tree))
  }

  function AfterChange(s: State, id: nat, c: Change): State {
    var i := FindId(s.quids, id);
    if i == |s.quids| then s else s.(quids := s.quids[i := Changed(s.quids[i], c)])
  }

  // ---- Saving

  /** What is saved of a quiddity; its kind only when it was created after the reset. */
  datatype Facts =
    Facts(nick: string, kind: Option<string>, custom: Tree, userData: Tree, props: seq<(string, Val)>)

  function SavedProps(props: seq<Prop>): seq<(string, Val)> {
    if props == [] then []
    else
      var n := |props| - 1;
      SavedProps(props[..n]) +
      if props[n].writable && props[n].saved then [(props[n].name, props[n].value)] else []
  }

  function FactsOf(q: Quid, atReset: seq<nat>): Facts {
    Facts(q.nick, if q.id in atReset then None else Some(q.kind), q.custom, q.userData, SavedProps(q.props))
  }

  function AllFacts(s: State): seq<Facts> {
    seq(|s.quids|, i requires 0 <= i < |s.quids| => FactsOf(s.quids[i], s.atReset))
  }

  function SaveProps(t: Tree, nick: string, props: seq<(string, Val)>): Tree {
    if props == [] then t
    else
      var n := |props| - 1;
      Graft(SaveProps(t, nick, props[..n]), ".properties." + nick + "." + props[n].0, Leaf(props[n].1))
  }

  function SaveOne(t: Tree, f: Facts): Tree {
    var t1 := if f.custom.IsEmpty() then t else Graft(t, ".custom_states." + f.nick, f.custom);
    var t2 := if f.kind == None then t1 else Graft(t1, ".quiddities." + f.nick, Leaf(Text(f.kind.value)));
    var t3 := if f.kind == None then t2 else Graft(t2, ".nicknames." + f.nick, Leaf(Text(f.nick)));
    var t4 := if f.userData.IsEmpty() then t3 else Graft(t3, ".userdata." + f.nick, f.userData);
    SaveProps(t4, f.nick, f.props)
  }

  function SaveAll(fs: seq<Facts>): Tree {
    if fs == [] then EMPTY else SaveOne(SaveAll(fs[..|fs| - 1]), fs[|fs| - 1])
  }

  function Saved(s: State): Tree { SaveAll(AllFacts(s)) }

  // ---- Loading

  /** The steps of a load that go through the keys of a section. */
  datatype Phase =
    | Loading(customs: Tree)
    | Naming(nicknames: Tree)
    | Setting(properties: Tree)
    | Filling(data: Tree)
    | Starting
    | Loaded

  function TextOf(v: Option<Val>): string {
    match v
    case Some(Text(text)) => text
    case _ => ""
  }

  function ToText(v: Option<Val>): string {
    match v
    case Some(Text(text)) => text
    case Some(Bool(b)) => if b then "true" else "false"
    case None => "null"
  }

  /** Reads a value of the type of another one. */
  function Parse(like: Val, text: string): Option<Val> {
    if like.Text? then Some(Text(text))
    else if text == "" then None
    else if text[0] in "tT" then Some(Bool(true))
    else if text[0] in "fF" then Some(Bool(false))
    else None
  }

  function PropIndex(props: seq<Prop>, name: string): (i: nat)
    ensures i <= |props|
    ensures i < |props| ==> props[i].name == name
    ensures forall j :: 0 <= j < i ==> props[j].name != name
  {
    if props == [] || props[0].name == name then 0 else 1 + PropIndex(props[1..], name)
  }

  function SetProp(q: Quid, name: string, text: string): Quid {
    var i := PropIndex(q.props, name);
    if i == |q.props| || !q.props[i].writable then q else
    var v := Parse(q.props[i].value, text);
    if v == None then q else q.(props := q.props[i := q.props[i].(value := v.value)])
  }

  predicate Deferred(properties: Tree, nick: string, prop: string) {
    prop == "started" && GetValue(properties, nick + ".started") == Some(Bool(true))
  }

  /** The first n of the properties saved for a quiddity. */
  function SetProps(properties: Tree, nick: string, props: seq<string>, n: nat, q: Quid): Quid
    requires n <= |props|
  {
    if n == 0 then q
    else
      var before, prop := SetProps(properties, nick, props, n - 1, q), props[n - 1];
      if Deferred(properties, nick, prop) then before
      else SetProp(before, prop, ToText(GetValue(properties, nick + "." + prop)))
  }

  function FillData(data: Tree, nick: string, keys: seq<string>, n: nat, userData: Tree): Tree
    requires n <= |keys|
  {
    if n == 0 then userData
    else Graft(FillData(data, nick, keys, n - 1, userData), keys[n - 1], GetTree(data, nick + "." + keys[n - 1]))
  }

  function OnLoading(q: Quid, custom: Tree): Quid { if custom.IsEmpty() then q else q.(custom := custom) }

  /** What a phase does to the quiddity that a key names. */
  function Apply(ph: Phase, key: string, q: Quid): Quid {
    match ph
    case Loading(customs) => OnLoading(q, if customs.IsEmpty() then EMPTY else GetTree(customs, key))
    case Naming(nicknames) => q.(nick := TextOf(GetValue(nicknames, key)))
    case Setting(properties) =>
      var props := ChildKeys(GetTree(properties, key));
      SetProps(properties, key, props, |props|, q)
    case Filling(data) =>
      var keys := ChildKeys(GetTree(data, key));
      q.(userData := FillData(data, key, keys, |keys|, q.userData))
    case Starting => SetProp(q, "started", "true")
    case Loaded => q
  }

  function ApplyOne(ph: Phase, key: string, quids: seq<Quid>): seq<Quid> {
    var i := Find(quids, key);
    if i == |quids| then quids else quids[i := Apply(ph, key, quids[i])]
  }

  /** The first n rounds of the loop of a phase. */
  function ApplyAll(ph: Phase, keys: seq<string>, n: nat, quids: seq<Quid>): seq<Quid>
    requires n <= |keys|
  {
    if n == 0 then quids else ApplyOne(ph, keys[n - 1], ApplyAll(ph, keys, n - 1, quids))
  }

  function CreateAll(kinds: Kinds, s: State, quiddities: Tree, n: nat): State
    requires n <= |quiddities.kids|
  {
    if n == 0 then s
    else
      var key := ChildKeys(quiddities)[n - 1];
      AfterCreate(kinds, CreateAll(kinds, s, quiddities, n - 1), TextOf(GetValue(quiddities, key)), key)
  }

  /** A quiddity is put off once for each property that says so. */
  function ToStartOf(properties: Tree, nick: string, props: seq<string>, n: nat): seq<string>
    requires n <= |props|
  {
    if n == 0 then []
    else ToStartOf(properties, nick, props, n - 1) + if Deferred(properties, nick, props[n - 1]) then [nick] else []
  }

  function ToStart(properties: Tree, n: nat): seq<string>
    requires n <= |properties.kids|
  {
    if n == 0 then []
    else
      var nick := ChildKeys(properties)[n - 1];
      var props := ChildKeys(GetTree(properties, nick));
      ToStart(properties, n - 1) + ToStartOf(properties, nick, props, |props|)
  }

  /** The phases in order. */
  function PhaseAt(t: Tree, k: nat): Phase {
    if k == 0 then Loading(GetTree(t, ".custom_states"))
    else if k == 1 then Naming(GetTree(t, ".nicknames"))
    else if k == 2 then Setting(GetTree(t, ".properties"))
    else if k == 3 then Filling(GetTree(t, "userdata."))
    else if k == 4 then Starting
    else Loaded
  }

  /** The keys each of them goes through. */
  function KeysAt(t: Tree, k: nat): seq<string> {
    if k == 1 then ChildKeys(GetTree(t, ".nicknames"))
    else if k == 2 then ChildKeys(GetTree(t, ".properties"))
    else if k == 3 then ChildKeys(GetTree(t, "userdata."))
    else if k == 4 then ToStart(GetTree(t, ".properties"), |GetTree(t, ".properties").kids|)
    else ChildKeys(GetTree(t, ".quiddities"))
  }

  const PHASES := 6

  /** The quiddities after the first k phases. */
  function After(t: Tree, quids: seq<Quid>, k: nat): seq<Quid> {
    if k == 0 then quids else ApplyAll(PhaseAt(t, k - 1), KeysAt(t, k - 1), |KeysAt(t, k - 1)|, After(t, quids, k - 1))
  }

  function AfterLoad(kinds: Kinds, s: State, t: Tree): State {
    var quiddities := GetTree(t, ".quiddities");
    var made := CreateAll(kinds, s, quiddities, |quiddities.kids|);
    made.(quids := After(t, made.quids, PHASES))
  }

  // ---- What a load does, as it happens

  datatype Event =
    | Created(nick: string)
    | OnLoadingCall(nick: string)
    | Renamed(nick: string)
    | PropertySet(nick: string, prop: string)
    | Grafted(nick: string, key: string)
    | Started(nick: string)
    | OnLoadedCall(nick: string)
  {
    function Rank(): nat {
      match this
      case Created(_) => 0
      case OnLoadingCall(_) => 1
      case Renamed(_) => 2
      case PropertySet(_, _) => 3
      case Grafted(_, _) => 4
      case Started(_) => 5
      case OnLoadedCall(_) => 6
    }
  }

  function SetEvents(properties: Tree, nick: string, props: seq<string>, n: nat): seq<Event>
    requires n <= |props|
  {
    if n == 0 then []
    else
      SetEvents(properties, nick, props, n - 1) +
      if Deferred(properties, nick, props[n - 1]) then [] else [PropertySet(nick, props[n - 1])]
  }

  function GraftEvents(nick: string, keys: seq<string>): seq<Event> {
    seq(|keys|, i requires 0 <= i < |keys| => Grafted(nick, keys[i]))
  }

  function Events(ph: Phase, key: string): seq<Event> {
    match ph
    case Loading(_) => [OnLoadingCall(key)]
    case Naming(_) => [Renamed(key)]
    case Setting(properties) =>
      var props := ChildKeys(GetTree(properties, key));
      SetEvents(properties, key, props, |props|)
    case Filling(data) => GraftEvents(key, ChildKeys(GetTree(data, key)))
    case Starting => [Started(key)]
    case Loaded => [OnLoadedCall(key)]
  }

  /** No event when the key names no quiddity. */
  function EventsOne(ph: Phase, key: string, quids: seq<Quid>): seq<Event> {
    if Find(quids, key) < |quids| then Events(ph, key) else []
  }

  function Trace(ph: Phase, keys: seq<string>, n: nat, quids: seq<Quid>): seq<Event>
    requires n <= |keys|
  {
    if n == 0 then []
    else Trace(ph, keys, n - 1, quids) + EventsOne(ph, keys[n - 1], ApplyAll(ph, keys, n - 1, quids))
  }

  function TraceOf(t: Tree, quids: seq<Quid>, k: nat): seq<Event> {
    if k == 0 then []
    else
      var keys := KeysAt(t, k - 1);
      TraceOf(t, quids, k - 1) + Trace(PhaseAt(t, k - 1), keys, |keys|, After(t, quids, k - 1))
  }

  function CreateTrace(kinds: Kinds, s: State, quiddities: Tree, n: nat): seq<Event>
    requires n <= |quiddities.kids|
  {
    if n == 0 then []
    else
      var before, after := CreateAll(kinds, s, quiddities, n - 1), CreateAll(kinds, s, quiddities, n);
      CreateTrace(kinds, s, quiddities, n - 1) +
      if |before.quids| < |after.quids| then [Created(ChildKeys(quiddities)[n - 1])] else []
  }

  function LoadTrace(kinds: Kinds, s: State, t: Tree): seq<Event> {
    var quiddities := GetTree(t, ".quiddities");
    var n := |quiddities.kids|;
    CreateTrace(kinds, s, quiddities, n) + TraceOf(t, CreateAll(kinds, s, quiddities, n).quids, PHASES)
  }

  // ---- The switcher

  class Switcher {
    const kinds: Kinds
    var quids: seq<Quid>
    var lastId: nat
    var atReset: seq<nat>
    var log: seq<Event>

    function Now(): State
      reads this
    {
      State(quids, lastId, atReset)
    }

    constructor (kinds: Kinds)
      ensures Now() == State([], 0, []) && this.kinds == kinds && log == []
    {
      this.kinds := kinds;
      quids, lastId, atReset, log := [], 0, [], [];
    }

    method Create(kind: string, nick: string) returns (created: bool)
      modifies this
      ensures Now() == AfterCreate(kinds, old(Now()), kind, nick)
      ensures created <==> |quids| > |old(quids)|
      ensures log == if created then old(log) + [Created(nick)] else old(log)
    {
      if kind !in kinds {
        return false;
      }
      lastId := lastId + 1;
      var name := nick;
      if nick == "" {
        name := kind + VersionText.Decimal(lastId);
      } else if Find(quids, nick) < |quids| {
        return false;
      }
      quids := quids + [Quid(lastId, kind, name, kinds[kind].props, EMPTY, kinds[kind].custom)];
      log := log + [Created(nick)];
      return true;
    }

    method Remove(id: nat) returns (removed: bool)
      modifies this`quids
      ensures Now() == AfterRemove(old(Now()), id)
      ensures removed <==> |quids| < |old(quids)|
    {
      var i := FindId(quids, id);
      if i == |quids| {
        return false;
      }
      quids := quids[..i] + quids[i + 1..];
      return true;
    }

    method ChangeQuiddity(id: nat, c: Change) returns (found: bool)
      modifies this`quids
      ensures Now() == AfterChange(old(Now()), id, c)
      ensures found <==> FindId(old(quids), id) < |old(quids)|
    {
      var i := FindId(quids, id);
      if i == |quids| {
        return false;
      }
      quids := quids[i := Changed(quids[i], c)];
      return true;
    }

    method ResetState(removeCreated: bool)
      modifies this`quids, this`atReset
      ensures Now() == AfterReset(old(Now()), removeCreated)
    {
      if removeCreated {
        var kept := [];
        for i := 0 to |quids|
          invariant quids == old(quids) && atReset == old(atReset)
          invariant kept == KeptAtReset(quids[..i], atReset)
        {
          assert quids[..i + 1][..i] == quids[..i];
          if quids[i].id in atReset {
            kept := kept + [quids[i]];
          }
        }
        assert quids[..|quids|] == quids;
        quids := kept;
      }
      atReset := IdsOf(quids);
    }

    method GetState() returns (tree: Tree)
      ensures tree == Saved(Now())
    {
      tree := EMPTY;
      for i := 0 to |quids|
        invariant tree == SaveAll(AllFacts(Now())[..i])
      {
        ghost var before, f := tree, AllFacts(Now())[i];
        assert AllFacts(Now())[..i + 1][..i] == AllFacts(Now())[..i];
        var q := quids[i];
        if !q.custom.IsEmpty() {
          tree := Graft(tree, ".custom_states." + q.nick, q.custom);
        }
        if q.id !in atReset {
          tree := Graft(tree, ".quiddities." + q.nick, Leaf(Text(q.kind)));
        }
        if q.id !in atReset {
          tree := Graft(tree, ".nicknames." + q.nick, Leaf(Text(q.nick)));
        }
        if !q.userData.IsEmpty() {
          tree := Graft(tree, ".userdata." + q.nick, q.userData);
        }
        tree := SaveProperties(tree, q.nick, q.props);
        assert tree == SaveOne(before, f);
      }
      assert AllFacts(Now())[..|quids|] == AllFacts(Now());
    }

    static method SaveProperties(t: Tree, nick: string, props: seq<Prop>) returns (tree: Tree)
      ensures tree == SaveProps(t, nick, SavedProps(props))
    {
      tree := t;
      for i := 0 to |props|
        invariant tree == SaveProps(t, nick, SavedProps(props[..i]))
      {
        assert props[..i + 1][..i] == props[..i];
        ghost var before, now := SavedProps(props[..i]), SavedProps(props[..i + 1]);
        if props[i].writable && props[i].saved {
          tree := Graft(tree, ".properties." + nick + "." + props[i].name, Leaf(props[i].value));
          assert now == before + [(props[i].name, props[i].value)];
          assert now[..|now| - 1] == before;
          assert now[|now| - 1] == (props[i].name, props[i].value);
        } else {
          assert now == before;
        }
      }
      assert props[..|props|] == props;
    }

    method LoadState(state: Option<Tree>) returns (ok: bool)
      modifies this
      ensures ok == state.Some? && atReset == old(atReset)
      ensures !ok ==> Now() == old(Now()) && log == old(log)
      ensures ok ==> Now() == AfterLoad(kinds, old(Now()), state.value)
      ensures ok ==> log == old(log) + LoadTrace(kinds, old(Now()), state.value)
    {
      hide ApplyAll, Trace, CreateAll, CreateTrace, ToStart, GetTree, After, TraceOf;
      if state == None {
        return false;
      }
      var t := state.value;
      var quiddities := GetTree(t, ".quiddities");
      var data := GetTree(t, "userdata.");
      var properties := GetTree(t, ".properties");
      var customs := GetTree(t, ".custom_states");
      var nicknames := GetTree(t, ".nicknames");
      CreateQuiddities(quiddities);
      ghost var made, start := quids, log;
      GoThrough(Loading(customs), ChildKeys(quiddities));
      NoPhase(t, made);
      OnePhase(t, made, 0);
      assert quids == After(t, made, 1) && log == start + TraceOf(t, made, 1);
      GoThrough(Naming(nicknames), ChildKeys(nicknames));
      OnePhase(t, made, 1);
      assert quids == After(t, made, 2) && log == start + TraceOf(t, made, 2);
      var toStart := SetProperties(properties);
      OnePhase(t, made, 2);
      assert quids == After(t, made, 3) && log == start + TraceOf(t, made, 3);
      GoThrough(Filling(data), ChildKeys(data));
      OnePhase(t, made, 3);
      assert quids == After(t, made, 4) && log == start + TraceOf(t, made, 4);
      GoThrough(Starting, toStart);
      OnePhase(t, made, 4);
      assert quids == After(t, made, 5) && log == start + TraceOf(t, made, 5);
      GoThrough(Loaded, ChildKeys(quiddities));
      OnePhase(t, made, 5);
      assert quids == After(t, made, 6) && log == start + TraceOf(t, made, 6);
      return true;
    }

    method CreateQuiddities(quiddities: Tree)
      modifies this
      ensures Now() == CreateAll(kinds, old(Now()), quiddities, |quiddities.kids|) && atReset == old(atReset)
      ensures log == old(log) + CreateTrace(kinds, old(Now()), quiddities, |quiddities.kids|)
    {
      for i := 0 to |quiddities.kids|
        invariant Now() == CreateAll(kinds, old(Now()), quiddities, i) && atReset == old(atReset)
        invariant log == old(log) + CreateTrace(kinds, old(Now()), quiddities, i)
      {
        var key := ChildKeys(quiddities)[i];
        var created := Create(TextOf(GetValue(quiddities, key)), key);
      }
    }

    /** One of the loops over the keys of a section. */
    method GoThrough(ph: Phase, keys: seq<string>)
      modifies this`quids, this`log
      ensures quids == ApplyAll(ph, keys, |keys|, old(quids))
      ensures log == old(log) + Trace(ph, keys, |keys|, old(quids))
    {
      hide ApplyOne, EventsOne;
      for k := 0 to |keys|
        invariant quids == ApplyAll(ph, keys, k, old(quids))
        invariant log == old(log) + Trace(ph, keys, k, old(quids))
      {
        Visit(ph, keys[k]);
      }
    }

    method Visit(ph: Phase, key: string)
      modifies this`quids, this`log
      ensures quids == ApplyOne(ph, key, old(quids))
      ensures log == old(log) + EventsOne(ph, key, old(quids))
    {
      var i := Find(quids, key);
      if i < |quids| {
        quids := quids[i := Apply(ph, key, quids[i])];
        log := log + Events(ph, key);
      }
    }

    /** The loops over the saved properties, which put off what is to be started. */
    method SetProperties(properties: Tree) returns (toStart: seq<string>)
      modifies this`quids, this`log
      ensures quids == ApplyAll(Setting(properties), ChildKeys(properties), |properties.kids|, old(quids))
      ensures log == old(log) + Trace(Setting(properties), ChildKeys(properties), |properties.kids|, old(quids))
      ensures toStart == ToStart(properties, |properties.kids|)
    {
      hide ApplyOne, EventsOne, ToStartOf;
      toStart := [];
      var nicks := ChildKeys(properties);
      for k := 0 to |nicks|
        invariant quids == ApplyAll(Setting(properties), nicks, k, old(quids))
        invariant log == old(log) + Trace(Setting(properties), nicks, k, old(quids))
        invariant toStart == ToStart(properties, k)
      {
        var more := SetPropertiesOf(properties, nicks[k]);
        toStart := toStart + more;
      }
    }

    method SetPropertiesOf(properties: Tree, nick: string) returns (toStart: seq<string>)
      modifies this`quids, this`log
      ensures quids == ApplyOne(Setting(properties), nick, old(quids))
      ensures log == old(log) + EventsOne(Setting(properties), nick, old(quids))
      ensures var props := ChildKeys(GetTree(properties, nick));
        toStart == ToStartOf(properties, nick, props, |props|)
    {
      toStart := SetEach(properties, nick, ChildKeys(GetTree(properties, nick)));
    }

    method SetEach(properties: Tree, nick: string, props: seq<string>) returns (toStart: seq<string>)
      modifies this`quids, this`log
      ensures var i := Find(old(quids), nick);
        && quids == (if i == |old(quids)| then old(quids)
                    else old(quids)[i := SetProps(properties, nick, props, |props|, old(quids)[i])])
        && log == old(log) + (if i == |old(quids)| then [] else SetEvents(properties, nick, props, |props|))
      ensures toStart == ToStartOf(properties, nick, props, |props|)
    {
      hide SetProp, Deferred, GetValue;
      toStart := [];
      ghost var i := Find(quids, nick);
      for k := 0 to |props|
        invariant i == |old(quids)| ==> quids == old(quids) && log == old(log)
        invariant i < |old(quids)| ==>
          && quids == old(quids)[i := SetProps(properties, nick, props, k, old(quids)[i])]
          && log == old(log) + SetEvents(properties, nick, props, k)
        invariant Find(quids, nick) == i
        invariant toStart == ToStartOf(properties, nick, props, k)
      {
        if Deferred(properties, nick, props[k]) {
          toStart := toStart + [nick];
        } else {
          var at := Find(quids, nick);
          if at < |quids| {
            quids := quids[at := SetProp(quids[at], props[k], ToText(GetValue(properties, nick + "." + props[k])))];
            log := log + [PropertySet(nick, props[k])];
            KeepsNicks(properties, nick, props, k + 1, old(quids)[i]);
            SameFind(old(quids), quids, nick);
          }
        }
      }
    }
  }

  lemma {:induction false} NoPhase(t: Tree, quids: seq<Quid>)
    ensures After(t, quids, 0) == quids && TraceOf(t, quids, 0) == []
  {
  }

  lemma {:induction false} OnePhase(t: Tree, quids: seq<Quid>, k: nat)
    ensures var ph, keys, before := PhaseAt(t, k), KeysAt(t, k), After(t, quids, k);
      && After(t, quids, k + 1) == ApplyAll(ph, keys, |keys|, before)
      && TraceOf(t, quids, k + 1) == TraceOf(t, quids, k) + Trace(ph, keys, |keys|, before)
  {
    hide ApplyAll, Trace, PhaseAt, KeysAt;
  }

  lemma {:induction false} KeepsNicks(properties: Tree, nick: string, props: seq<string>, n: nat, q: Quid)
    requires n <= |props|
    ensures SetProps(properties, nick, props, n, q).nick == q.nick
  {
    if n > 0 {
      KeepsNicks(properties, nick, props, n - 1, q);
    }
  }

  lemma {:induction false} SameFind(a: seq<Quid>, b: seq<Quid>, nick: string)
    requires |a| == |b| && forall i :: 0 <= i < |a| ==> a[i].nick == b[i].nick
    ensures Find(a, nick) == Find(b, nick)
  {
    if a != [] && a[0].nick != nick {
      SameFind(a[1..], b[1..], nick);
    }
  }
}
