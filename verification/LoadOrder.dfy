/** The order in which a load does things, and how often. */
module LoadOrder {
  import opened InfoTree
  import opened Switcher
  import opened SavedTree
  import opened RoundTrip

  function NickOf(e: Event): string {
    match e
    case Created(nick) => nick
    case OnLoadingCall(nick) => nick
    case Renamed(nick) => nick
    case PropertySet(nick, _) => nick
    case Grafted(nick, _) => nick
    case Started(nick) => nick
    case OnLoadedCall(nick) => nick
  }

  ghost predicate Sorted(trace: seq<Event>) {
    forall i, j :: 0 <= i < j < |trace| ==> trace[i].Rank() <= trace[j].Rank()
  }

  ghost predicate AllOfRank(trace: seq<Event>, rank: nat) {
    forall i :: 0 <= i < |trace| ==> trace[i].Rank() == rank
  }

  function RankOf(ph: Phase): nat {
    match ph
    case Loading(_) => 1
    case Naming(_) => 2
    case Setting(_) => 3
    case Filling(_) => 4
    case Starting => 5
    case Loaded => 6
  }

  // ---- Any tree

  lemma {:induction false} SetEventsAre(properties: Tree, nick: string, props: seq<string>, n: nat)
    requires n <= |props|
    ensures AllOfRank(SetEvents(properties, nick, props, n), 3)
    ensures forall e :: e in SetEvents(properties, nick, props, n) ==> NickOf(e) == nick
  {
    hide Deferred;
    if n > 0 {
      SetEventsAre(properties, nick, props, n - 1);
    }
  }

  lemma {:induction false} EventsAre(ph: Phase, key: string)
    ensures AllOfRank(Events(ph, key), RankOf(ph))
    ensures forall e :: e in Events(ph, key) ==> NickOf(e) == key
  {
    hide GetTree, SetEvents;
    match ph
    case Setting(properties) =>
      var props := ChildKeys(GetTree(properties, key));
      SetEventsAre(properties, key, props, |props|);
    case _ =>
  }

  lemma {:induction false} TraceRank(ph: Phase, keys: seq<string>, n: nat, quids: seq<Quid>)
    requires n <= |keys|
    ensures AllOfRank(Trace(ph, keys, n, quids), RankOf(ph))
  {
    hide ApplyAll, Events, RankOf;
    if n > 0 {
      TraceRank(ph, keys, n - 1, quids);
      EventsAre(ph, keys[n - 1]);
    }
  }

  lemma {:induction false} CreateRank(kinds: Kinds, s: State, quiddities: Tree, n: nat)
    requires n <= |quiddities.kids|
    ensures AllOfRank(CreateTrace(kinds, s, quiddities, n), 0)
  {
    hide CreateAll;
    if n > 0 {
      CreateRank(kinds, s, quiddities, n - 1);
    }
  }

  lemma {:induction false} PhasesInOrder(t: Tree, quids: seq<Quid>, k: nat)
    requires k <= PHASES
    ensures Sorted(TraceOf(t, quids, k))
    ensures RanksWithin(TraceOf(t, quids, k), 1, k)
  {
    hide Trace, KeysAt, After, Sorted, AllOfRank, RanksWithin, PhaseAt;
    if k == 0 {
      NoRanks();
    }
    if k > 0 {
      PhasesInOrder(t, quids, k - 1);
      TraceRank(PhaseAt(t, k - 1), KeysAt(t, k - 1), |KeysAt(t, k - 1)|, After(t, quids, k - 1));
      PhaseRank(t, k - 1);
      SortedSum(TraceOf(t, quids, k - 1),
                Trace(PhaseAt(t, k - 1), KeysAt(t, k - 1), |KeysAt(t, k - 1)|, After(t, quids, k - 1)), k);
    }
  }

  lemma {:induction false} NoRanks()
    ensures Sorted([]) && RanksWithin([], 1, 0)
  {
  }

  ghost predicate RanksWithin(trace: seq<Event>, low: nat, high: nat) {
    forall i :: 0 <= i < |trace| ==> low <= trace[i].Rank() <= high
  }

  lemma {:induction false} SortedSum(a: seq<Event>, b: seq<Event>, k: nat)
    requires 0 < k && Sorted(a) && RanksWithin(a, 1, k - 1) && AllOfRank(b, k)
    ensures Sorted(a + b) && RanksWithin(a + b, 1, k)
  {
  }

  lemma {:induction false} PhaseRank(t: Tree, k: nat)
    requires k < PHASES
    ensures RankOf(PhaseAt(t, k)) == k + 1
  {
    hide GetTree;
  }

  /** Whatever the tree holds: all creations come first, then on_loading, nicknames, property values, user data,
      the starts, and on_loaded at last. */
  lemma {:induction false} LoadInOrder(kinds: Kinds, s: State, t: Tree)
    ensures Sorted(LoadTrace(kinds, s, t))
  {
    hide TraceOf, CreateTrace, GetTree, CreateAll;
    var quiddities := GetTree(t, ".quiddities");
    CreateRank(kinds, s, quiddities, |quiddities.kids|);
    PhasesInOrder(t, CreateAll(kinds, s, quiddities, |quiddities.kids|).quids, PHASES);
  }

  /** What the tree says that can make a load do something. */
  predicate Says(t: Tree, e: Event) {
    var properties, data := GetTree(t, ".properties"), GetTree(t, "userdata.");
    match e
    case Created(nick) => nick in ChildKeys(GetTree(t, ".quiddities"))
    case OnLoadingCall(nick) => nick in ChildKeys(GetTree(t, ".quiddities"))
    case OnLoadedCall(nick) => nick in ChildKeys(GetTree(t, ".quiddities"))
    case Renamed(nick) => nick in ChildKeys(GetTree(t, ".nicknames"))
    case PropertySet(nick, prop) =>
      && nick in ChildKeys(properties) && prop in ChildKeys(GetTree(properties, nick))
      && (prop == "started" ==> GetValue(properties, nick + ".started") != Some(Bool(true)))
    case Grafted(nick, key) => nick in ChildKeys(data) && key in ChildKeys(GetTree(data, nick))
    case Started(nick) => nick in ChildKeys(properties) && IsStarted(properties, nick)
  }

  predicate IsStarted(properties: Tree, nick: string) {
    "started" in ChildKeys(GetTree(properties, nick)) && GetValue(properties, nick + ".started") == Some(Bool(true))
  }

  lemma {:induction false} InTrace(ph: Phase, keys: seq<string>, n: nat, quids: seq<Quid>, e: Event) returns (i: nat)
    requires n <= |keys| && e in Trace(ph, keys, n, quids)
    ensures i < n && e in Events(ph, keys[i])
  {
    hide ApplyAll, Events;
    if e in Trace(ph, keys, n - 1, quids) {
      i := InTrace(ph, keys, n - 1, quids, e);
    } else {
      i := n - 1;
    }
  }

  lemma {:induction false} InTraceOf(t: Tree, quids: seq<Quid>, k: nat, e: Event) returns (j: nat, key: string)
    requires e in TraceOf(t, quids, k)
    ensures j < k && key in KeysAt(t, j) && e in Events(PhaseAt(t, j), key)
  {
    hide Trace, KeysAt, PhaseAt, After, Events;
    if e in TraceOf(t, quids, k - 1) {
      j, key := InTraceOf(t, quids, k - 1, e);
    } else {
      j := k - 1;
      var i := InTrace(PhaseAt(t, j), KeysAt(t, j), |KeysAt(t, j)|, After(t, quids, j), e);
      key := KeysAt(t, j)[i];
    }
  }

  lemma {:induction false} InCreateTrace(kinds: Kinds, s: State, quiddities: Tree, n: nat, e: Event)
    requires n <= |quiddities.kids| && e in CreateTrace(kinds, s, quiddities, n)
    ensures e.Created? && e.nick in ChildKeys(quiddities)
  {
    hide CreateAll;
    if e in CreateTrace(kinds, s, quiddities, n - 1) {
      InCreateTrace(kinds, s, quiddities, n - 1, e);
    } else {
      assert ChildKeys(quiddities)[n - 1] in ChildKeys(quiddities);
    }
  }

  lemma {:induction false} InSetEvents(properties: Tree, nick: string, props: seq<string>, n: nat, e: Event)
    requires n <= |props| && e in SetEvents(properties, nick, props, n)
    ensures e.PropertySet? && e.nick == nick && e.prop in props && !Deferred(properties, nick, e.prop)
  {
    hide Deferred;
    if e in SetEvents(properties, nick, props, n - 1) {
      InSetEvents(properties, nick, props, n - 1, e);
    }
  }

  lemma {:induction false} InToStart(properties: Tree, n: nat, nick: string)
    requires n <= |properties.kids| && nick in ToStart(properties, n)
    ensures nick in ChildKeys(properties) && IsStarted(properties, nick)
  {
    hide GetTree, GetValue;
    var last := ChildKeys(properties)[n - 1];
    if nick in ToStart(properties, n - 1) {
      InToStart(properties, n - 1, nick);
    } else {
      var props := ChildKeys(GetTree(properties, last));
      InToStartOf(properties, last, props, |props|, nick);
      assert last in ChildKeys(properties);
    }
  }

  lemma {:induction false} InToStartOf(properties: Tree, who: string, props: seq<string>, n: nat, nick: string)
    requires n <= |props| && nick in ToStartOf(properties, who, props, n)
    ensures nick == who && "started" in props && GetValue(properties, nick + ".started") == Some(Bool(true))
  {
    hide GetValue;
    if nick in ToStartOf(properties, who, props, n - 1) {
      InToStartOf(properties, who, props, n - 1, nick);
    }
  }

  lemma {:induction false} EventSays(t: Tree, j: nat, key: string, e: Event)
    requires j < PHASES && key in KeysAt(t, j) && e in Events(PhaseAt(t, j), key)
    ensures Says(t, e)
  {
    hide GetTree, GetValue, ToStart, SetEvents;
    var properties := GetTree(t, ".properties");
    if j == 2 {
      var props := ChildKeys(GetTree(properties, key));
      InSetEvents(properties, key, props, |props|, e);
    } else if j == 4 {
      InToStart(properties, |properties.kids|, key);
    }
  }

  /** Whatever the tree holds, a load does only what it says, each thing in its section. */
  lemma {:induction false} OnlyWhatTheTreeSays(kinds: Kinds, s: State, t: Tree, e: Event)
    requires e in LoadTrace(kinds, s, t)
    ensures Says(t, e)
  {
    hide TraceOf, CreateTrace, GetTree, CreateAll, Says, KeysAt, PhaseAt, Events;
    var quiddities := GetTree(t, ".quiddities");
    var n := |quiddities.kids|;
    if e in CreateTrace(kinds, s, quiddities, n) {
      InCreateTrace(kinds, s, quiddities, n, e);
      CreationSays(t, e.nick);
    } else {
      var j, key := InTraceOf(t, CreateAll(kinds, s, quiddities, n).quids, PHASES, e);
      EventSays(t, j, key, e);
    }
  }

  lemma {:induction false} CreationSays(t: Tree, nick: string)
    requires nick in ChildKeys(GetTree(t, ".quiddities"))
    ensures Says(t, Created(nick))
  {
    hide GetTree;
  }

  // ---- A saved tree

  lemma {:induction false} Among(quids: seq<Quid>, i: nat)
    requires i < |quids|
    ensures Find(quids, quids[i].nick) < |quids|
  {
  }

  lemma {:induction false} NotIn(e: Event, trace: seq<Event>)
    requires e !in trace
    ensures multiset(trace)[e] == 0
  {
  }

  lemma {:induction false} CountSum(a: seq<Event>, b: seq<Event>, e: Event)
    ensures multiset(a + b)[e] == multiset(a)[e] + multiset(b)[e]
  {
    assert multiset(a + b) == multiset(a) + multiset(b);
  }

  /** An event happens in a phase as often as the key of its quiddity asks for it. */
  lemma {:induction false} CountInTrace(fs: seq<Facts>, k: nat, n: nat, quids: seq<Quid>, e: Event)
    requires Good(fs) && |quids| == |fs| && forall i :: 0 <= i < |fs| ==> quids[i].nick == fs[i].nick
    requires n <= |KeysAt(SaveAll(fs), k)|
    ensures var t := SaveAll(fs);
      multiset(Trace(PhaseAt(t, k), KeysAt(t, k), n, quids))[e] ==
      if NickOf(e) in KeysAt(t, k)[..n] then multiset(Events(PhaseAt(t, k), NickOf(e)))[e] else 0
  {
    hide SaveAll, PhaseAt, KeysAt, Apply, Events, EventsOne, ApplyAll, NickOf;
    if n > 0 {
      CountInTrace(fs, k, n - 1, quids, e);
      var t := SaveAll(fs);
      var ph, keys, key := PhaseAt(t, k), KeysAt(t, k), KeysAt(t, k)[n - 1];
      assert keys[..n] == keys[..n - 1] + [key];
      EventsOfOne(fs, k, n - 1, quids);
      CountSum(Trace(ph, keys, n - 1, quids), Events(ph, key), e);
      EventsAre(ph, key);
      if NickOf(e) != key {
        NotIn(e, Events(ph, key));
      } else {
        KeysAtAreDistinct(fs, k);
        assert key !in keys[..n - 1];
      }
    }
  }

  lemma {:induction false} EventsOfOne(fs: seq<Facts>, k: nat, n: nat, quids: seq<Quid>)
    requires Good(fs) && |quids| == |fs| && forall i :: 0 <= i < |fs| ==> quids[i].nick == fs[i].nick
    requires n < |KeysAt(SaveAll(fs), k)|
    ensures var t := SaveAll(fs);
      EventsOne(PhaseAt(t, k), KeysAt(t, k)[n], ApplyAll(PhaseAt(t, k), KeysAt(t, k), n, quids)) ==
      Events(PhaseAt(t, k), KeysAt(t, k)[n])
  {
    hide SaveAll, PhaseAt, KeysAt, Apply, Events, ApplyAll;
    var t := SaveAll(fs);
    var ph, keys := PhaseAt(t, k), KeysAt(t, k);
    var i := KeyNamesOne(fs, k, keys[n]);
    KeysAtAreDistinct(fs, k);
    forall j | 0 <= j < |quids| && quids[j].nick in keys
      ensures Apply(ph, quids[j].nick, quids[j]).nick == quids[j].nick
    {
      PhaseKeepsNick(fs, k, quids[j]);
    }
    Pointwise(ph, keys, n, quids);
    var now := ApplyAll(ph, keys, n, quids);
    assert now[i].nick == keys[n] by {
      assert now[i] == Step(ph, keys[..n], quids[i]);
      assert quids[i].nick in keys;
    }
    Among(now, i);
  }

  lemma {:induction false} KeyNamesOne(fs: seq<Facts>, k: nat, key: string) returns (i: nat)
    requires Good(fs) && key in KeysAt(SaveAll(fs), k)
    ensures i < |fs| && fs[i].nick == key
  {
    hide Entries, SaveAll, GetTree, ToStart, Entry;
    Sections(fs);
    if k == 1 {
      i := KeyOfSomeone(NickPart, fs, key);
    } else if k == 2 {
      i := KeyOfSomeone(PropPart, fs, key);
    } else if k == 3 {
      i := KeyOfSomeone(DataPart, fs, key);
    } else if k == 4 {
      i := StarterIsSomeone(fs, key);
    } else {
      i := KeyOfSomeone(KindPart, fs, key);
    }
  }

  lemma {:induction false} StarterIsSomeone(fs: seq<Facts>, key: string) returns (i: nat)
    requires Good(fs) && key in KeysAt(SaveAll(fs), 4)
    ensures i < |fs| && fs[i].nick == key
  {
    hide Entries, SaveAll, KeysAt, WillStart, Entry;
    var properties, n := Tree(None, Entries(PropPart, fs)), |Entries(PropPart, fs)|;
    StartKeysAre(fs);
    KeysAreDistinct(PropPart, fs);
    WillingAre(properties, n);
    assert key in ChildKeys(properties);
    i := KeyOfSomeone(PropPart, fs, key);
  }

  /** Events of other phases do not occur in a phase. */
  lemma {:induction false} CountInPhases(t: Tree, quids: seq<Quid>, k: nat, e: Event)
    requires k <= PHASES
    ensures multiset(TraceOf(t, quids, k))[e] ==
      if 0 < e.Rank() <= k
      then multiset(Trace(PhaseAt(t, e.Rank() - 1), KeysAt(t, e.Rank() - 1), |KeysAt(t, e.Rank() - 1)|,
                          After(t, quids, e.Rank() - 1)))[e]
      else 0
  {
    hide Trace, KeysAt, After, PhaseAt;
    if k > 0 {
      CountInPhases(t, quids, k - 1, e);
      var last := Trace(PhaseAt(t, k - 1), KeysAt(t, k - 1), |KeysAt(t, k - 1)|, After(t, quids, k - 1));
      CountSum(TraceOf(t, quids, k - 1), last, e);
      TraceRank(PhaseAt(t, k - 1), KeysAt(t, k - 1), |KeysAt(t, k - 1)|, After(t, quids, k - 1));
      PhaseRank(t, k - 1);
      if e.Rank() != k {
        NotIn(e, last);
      }
    }
  }

  /** How often an event happens in the load of a saved state. */
  lemma {:induction false} CountInLoad(kinds: Kinds, s: State, mid: State, e: Event)
    requires Valid(kinds, s) && Drifted(AfterReset(s, true), mid) && e.Rank() > 0
    ensures var t, k := Saved(s), e.Rank() - 1;
      multiset(LoadTrace(kinds, mid, t))[e] ==
      if NickOf(e) in KeysAt(t, k) then multiset(Events(PhaseAt(t, k), NickOf(e)))[e] else 0
  {
    hide TraceOf, CreateTrace, GetTree, CreateAll, Saved, SaveAll, KeysAt, PhaseAt, After, Events, Trace, NickOf;
    var t, k := Saved(s), e.Rank() - 1;
    var quiddities := GetTree(t, ".quiddities");
    var n := |quiddities.kids|;
    var made := CreateAll(kinds, mid, quiddities, n).quids;
    CreateRank(kinds, mid, quiddities, n);
    NotIn(e, CreateTrace(kinds, mid, quiddities, n));
    CountSum(CreateTrace(kinds, mid, quiddities, n), TraceOf(t, made, PHASES), e);
    CountInPhases(t, made, PHASES, e);
    NicksOfMade(kinds, s, mid);
    AllFactsAreGood(kinds, s);
    SavedIs(s);
    EachByItself(AllFacts(s), made, k);
    CountInTrace(AllFacts(s), k, |KeysAt(t, k)|, After(t, made, k), e);
    assert KeysAt(t, k)[..|KeysAt(t, k)|] == KeysAt(t, k);
  }

  lemma {:induction false} NicksOfMade(kinds: Kinds, s: State, mid: State)
    requires Valid(kinds, s) && Drifted(AfterReset(s, true), mid)
    ensures var quiddities := GetTree(Saved(s), ".quiddities");
      var made := CreateAll(kinds, mid, quiddities, |quiddities.kids|).quids;
      |made| == |s.quids| && DistinctNicks(made) && forall i :: 0 <= i < |made| ==> made[i].nick == s.quids[i].nick
  {
    hide Saved, SaveAll, CreateAll, Entries, GetTree, MadeFrom, SplitAt, Good, SavedProps;
    var r := KeptIsPrefix(s.quids, s.atReset);
    var fs := AllFacts(s);
    AllFactsAreGood(kinds, s);
    SplitsAt(kinds, s, r);
    KindEntries(kinds, fs, r);
    KeptNicks(s, mid, r);
    hide Valid, Drifted;
    CreatesAll(kinds, mid, fs, |fs| - r);
    Sections(fs);
    SavedIs(s);
    MadeNicks(kinds, mid, fs, CreateAll(kinds, mid, Tree(None, Entries(KindPart, fs)), |fs| - r), |fs| - r);
    GoodNicks(s);
  }

  lemma {:induction false} KeptNicks(s: State, mid: State, r: nat)
    requires Drifted(AfterReset(s, true), mid) && r <= |s.quids| && AfterReset(s, true).quids == s.quids[..r]
    ensures |mid.quids| == r
    ensures forall i :: 0 <= i < r ==> mid.quids[i].nick == AllFacts(s)[i].nick
  {
    hide SavedProps;
  }

  lemma {:induction false} GoodNicks(s: State)
    requires Good(AllFacts(s))
    ensures DistinctNicks(s.quids)
  {
    hide SavedProps;
    forall i, j | 0 <= i < j < |s.quids| ensures s.quids[i].nick != s.quids[j].nick {
      assert AllFacts(s)[i].nick != AllFacts(s)[j].nick;
    }
  }

  ghost predicate Once(trace: seq<Event>, e: Event, happens: bool) {
    multiset(trace)[e] == if happens then 1 else 0
  }

  lemma {:induction false} NamesAre(f: Facts)
    ensures var names := ChildKeys(Tree(None, PropKids(f.props)));
      |names| == |f.props| && forall k :: 0 <= k < |names| ==> names[k] == f.props[k].0
  {
  }

  lemma {:induction false} StarterIff(fs: seq<Facts>, i: nat)
    requires Good(fs) && i < |fs|
    ensures fs[i].nick in KeysAt(SaveAll(fs), 4) <==> ("started", Bool(true)) in fs[i].props
  {
    hide SaveAll, Entries, GetTree, KeysAt, GetValue;
    var properties, f := Tree(None, Entries(PropPart, fs)), fs[i];
    StartKeyIff(fs, i);
    KeyIff(PropPart, fs, i);
    PropsOf(fs, i);
    var names := ChildKeys(Tree(None, PropKids(f.props)));
    NamesAre(f);
    if k :| 0 <= k < |f.props| && f.props[k].0 == "started" {
      ValuesOf(fs, i, k);
      assert f.nick + ".started" == f.nick + "." + f.props[k].0;
      assert names[k] == "started";
      assert GoodNames(f);
    }
  }

  lemma {:induction false} StartOnce(kinds: Kinds, s: State, mid: State, i: nat)
    requires Valid(kinds, s) && Drifted(AfterReset(s, true), mid) && i < |s.quids|
    ensures Once(LoadTrace(kinds, mid, Saved(s)), Started(s.quids[i].nick),
                 ("started", Bool(true)) in SavedProps(s.quids[i].props))
  {
    hide SaveAll, LoadTrace, SavedProps, KeysAt, Saved;
    AllFactsAreGood(kinds, s);
    SavedIs(s);
    StarterIff(AllFacts(s), i);
    CountInLoad(kinds, s, mid, Started(s.quids[i].nick));
  }

  lemma {:induction false} SetEventsCount(properties: Tree, nick: string, props: seq<string>, n: nat, prop: string)
    requires n <= |props| && DistinctStrings(props)
    ensures Once(SetEvents(properties, nick, props, n), PropertySet(nick, prop),
                 prop in props[..n] && !Deferred(properties, nick, prop))
  {
    hide Deferred, SetEvents;
    if n == 0 {
      NoSetEvents(properties, nick, props);
    } else {
      SetEventsCount(properties, nick, props, n - 1, prop);
      var last := props[n - 1];
      InOneMore(props, n, prop);
      NextSetEvents(properties, nick, props, n);
      CountSum(SetEvents(properties, nick, props, n - 1),
               if Deferred(properties, nick, last) then [] else [PropertySet(nick, last)], PropertySet(nick, prop));
    }
  }

  lemma {:induction false} NoSetEvents(properties: Tree, nick: string, props: seq<string>)
    ensures SetEvents(properties, nick, props, 0) == []
  {
  }

  lemma {:induction false} NextSetEvents(properties: Tree, nick: string, props: seq<string>, n: nat)
    requires 0 < n <= |props|
    ensures SetEvents(properties, nick, props, n) == SetEvents(properties, nick, props, n - 1) +
      if Deferred(properties, nick, props[n - 1]) then [] else [PropertySet(nick, props[n - 1])]
  {
    hide Deferred;
  }

  lemma {:induction false} SetOnce(kinds: Kinds, s: State, mid: State, i: nat, e: (string, Val))
    requires Valid(kinds, s) && Drifted(AfterReset(s, true), mid) && i < |s.quids| && e in SavedProps(s.quids[i].props)
    ensures Once(LoadTrace(kinds, mid, Saved(s)), PropertySet(s.quids[i].nick, e.0), e != ("started", Bool(true)))
  {
    hide SaveAll, LoadTrace, SavedProps, Saved, Entries, GetTree, SetEvents, GetValue;
    var fs := AllFacts(s);
    var properties, f := Tree(None, Entries(PropPart, fs)), fs[i];
    AllFactsAreGood(kinds, s);
    SavedIs(s);
    Sections(fs);
    CountInLoad(kinds, s, mid, PropertySet(f.nick, e.0));
    KeyIff(PropPart, fs, i);
    PropsOf(fs, i);
    var names := ChildKeys(Tree(None, PropKids(f.props)));
    SetEventsCount(properties, f.nick, names, |names|, e.0);
    var k :| 0 <= k < |f.props| && f.props[k] == e;
    assert names[..|names|] == names && names[k] == e.0;
    ValuesOf(fs, i, k);
    if e.0 == "started" {
      assert f.nick + ".started" == f.nick + "." + f.props[k].0;
    }
  }

  lemma {:induction false} CountDistinct(trace: seq<Event>, j: nat)
    requires j < |trace| && forall k :: 0 <= k < |trace| && k != j ==> trace[k] != trace[j]
    ensures multiset(trace)[trace[j]] == 1
  {
    assert trace == trace[..j] + ([trace[j]] + trace[j + 1..]);
    NotIn(trace[j], trace[..j]);
    NotIn(trace[j], trace[j + 1..]);
  }

  lemma {:induction false} GraftOnce(kinds: Kinds, s: State, mid: State, i: nat, kid: (string, Tree))
    requires Valid(kinds, s) && Drifted(AfterReset(s, true), mid) && i < |s.quids| && kid in s.quids[i].userData.kids
    ensures Once(LoadTrace(kinds, mid, Saved(s)), Grafted(s.quids[i].nick, kid.0), true)
  {
    hide SaveAll, LoadTrace, SavedProps, Saved, Entries, GetTree, Sub, KeysAt, PhaseAt, Events;
    var fs := AllFacts(s);
    AllFactsAreGood(kinds, s);
    SavedIs(s);
    CountInLoad(kinds, s, mid, Grafted(fs[i].nick, kid.0));
    assert GoodQuid(kinds, s, s.quids[i]);
    GraftEventsOf(fs, i);
    var events := GraftEvents(fs[i].nick, ChildKeys(fs[i].userData));
    var j :| 0 <= j < |fs[i].userData.kids| && fs[i].userData.kids[j] == kid;
    assert events[j] == Grafted(fs[i].nick, kid.0);
    CountDistinct(events, j);
  }

  lemma {:induction false} GraftEventsOf(fs: seq<Facts>, i: nat)
    requires Good(fs) && i < |fs| && fs[i].userData.kids != []
    ensures fs[i].nick in KeysAt(SaveAll(fs), 3)
    ensures Events(PhaseAt(SaveAll(fs), 3), fs[i].nick) == GraftEvents(fs[i].nick, ChildKeys(fs[i].userData))
  {
    hide SaveAll, Entries, GetTree, Sub;
    Sections(fs);
    KeyIff(DataPart, fs, i);
    EntryAt(DataPart, fs, i);
    GetOfKey(Tree(None, Entries(DataPart, fs)), fs[i].nick);
  }

  /** on_loading, the renaming and on_loaded happen once for each quiddity that was created, and for no other; a start
      that was saved happens once, and so does each other saved property value. */
  lemma {:induction false} EachOnce(kinds: Kinds, s: State, mid: State, i: nat)
    requires Valid(kinds, s) && Drifted(AfterReset(s, true), mid) && i < |s.quids|
    ensures var trace, q := LoadTrace(kinds, mid, Saved(s)), s.quids[i];
      && Once(trace, OnLoadingCall(q.nick), q.id !in s.atReset)
      && Once(trace, Renamed(q.nick), q.id !in s.atReset)
      && Once(trace, OnLoadedCall(q.nick), q.id !in s.atReset)
      && Once(trace, Started(q.nick), ("started", Bool(true)) in SavedProps(q.props))
      && (forall e :: e in SavedProps(q.props) ==>
        Once(trace, PropertySet(q.nick, e.0), e != ("started", Bool(true))))
      && (forall kid :: kid in q.userData.kids ==> Once(trace, Grafted(q.nick, kid.0), true))
  {
    hide Saved, SaveAll, Entries, GetTree, LoadTrace, SavedProps, Deferred;
    var fs, q, t := AllFacts(s), s.quids[i], Saved(s);
    AllFactsAreGood(kinds, s);
    SavedIs(s);
    Sections(fs);
    KeyIff(KindPart, fs, i);
    KeyIff(NickPart, fs, i);
    CountInLoad(kinds, s, mid, OnLoadingCall(q.nick));
    CountInLoad(kinds, s, mid, Renamed(q.nick));
    CountInLoad(kinds, s, mid, OnLoadedCall(q.nick));
    StartOnce(kinds, s, mid, i);
    forall e | e in SavedProps(q.props)
      ensures Once(LoadTrace(kinds, mid, t), PropertySet(q.nick, e.0), e != ("started", Bool(true)))
    {
      SetOnce(kinds, s, mid, i, e);
    }
    forall kid | kid in q.userData.kids ensures Once(LoadTrace(kinds, mid, t), Grafted(q.nick, kid.0), true) {
      GraftOnce(kinds, s, mid, i, kid);
    }
  }

  // ---- The creations

  lemma {:induction false} CreateTraceIs(kinds: Kinds, mid: State, fs: seq<Facts>, n: nat)
    requires Good(fs) && SplitAt(kinds, fs, |mid.quids|) && n <= |fs| - |mid.quids|
    requires forall i :: 0 <= i < |mid.quids| ==> mid.quids[i].nick == fs[i].nick
    requires |Entries(KindPart, fs)| == |fs| - |mid.quids|
    ensures var trace := CreateTrace(kinds, mid, Tree(None, Entries(KindPart, fs)), n);
      |trace| == n && forall j :: 0 <= j < n ==> trace[j] == Created(fs[|mid.quids| + j].nick)
  {
    hide Entries, CreateAll, Good, MadeFrom, SplitAt;
    if n > 0 {
      CreateTraceIs(kinds, mid, fs, n - 1);
      var quiddities := Tree(None, Entries(KindPart, fs));
      CreatesAll(kinds, mid, fs, n - 1);
      MadeNicks(kinds, mid, fs, CreateAll(kinds, mid, quiddities, n - 1), n - 1);
      CreatesAll(kinds, mid, fs, n);
      MadeNicks(kinds, mid, fs, CreateAll(kinds, mid, quiddities, n), n);
      KindEntries(kinds, fs, |mid.quids|);
      assert ChildKeys(quiddities)[n - 1] == fs[|mid.quids| + n - 1].nick;
    }
  }

  lemma {:induction false} NothingCreatedLater(t: Tree, quids: seq<Quid>)
    ensures forall e :: e in TraceOf(t, quids, PHASES) ==> !e.Created?
  {
    hide TraceOf;
    PhasesInOrder(t, quids, PHASES);
    var trace := TraceOf(t, quids, PHASES);
    forall e | e in trace ensures !e.Created? {
      var i :| 0 <= i < |trace| && trace[i] == e;
    }
  }

  /** A load starts by creating the quiddities that were there beyond those kept, in their order, and creates nothing
      else. */
  lemma {:induction false} CreatesInOrder(kinds: Kinds, s: State, mid: State)
    requires Valid(kinds, s) && Drifted(AfterReset(s, true), mid)
    ensures var trace, r := LoadTrace(kinds, mid, Saved(s)), |mid.quids|;
      && r <= |s.quids| <= r + |trace|
      && (forall i :: r <= i < |s.quids| ==> trace[i - r] == Created(s.quids[i].nick))
      && (forall k :: |s.quids| - r <= k < |trace| ==> !trace[k].Created?)
  {
    hide Saved, SaveAll, CreateAll, CreateTrace, TraceOf, Entries, GetTree, Good, SavedProps;
    var r := KeptIsPrefix(s.quids, s.atReset);
    var fs := AllFacts(s);
    AllFactsAreGood(kinds, s);
    SplitsAt(kinds, s, r);
    KindEntries(kinds, fs, r);
    KeptNicks(s, mid, r);
    hide Valid, Drifted, SplitAt;
    CreateTraceIs(kinds, mid, fs, |fs| - r);
    Sections(fs);
    SavedIs(s);
    var quiddities := Tree(None, Entries(KindPart, fs));
    var trace := TraceOf(Saved(s), CreateAll(kinds, mid, quiddities, |fs| - r).quids, PHASES);
    NothingCreatedLater(Saved(s), CreateAll(kinds, mid, quiddities, |fs| - r).quids);
    var all := LoadTrace(kinds, mid, Saved(s));
    assert all == CreateTrace(kinds, mid, quiddities, |fs| - r) + trace;
    forall k | |fs| - r <= k < |all| ensures !all[k].Created? {
      assert all[k] in trace;
    }
  }

  // ---- The starts

  function StartedOf(trace: seq<Event>): seq<string> {
    if trace == [] then []
    else
      var n := |trace| - 1;
      StartedOf(trace[..n]) + if trace[n].Started? then [trace[n].nick] else []
  }

  lemma {:induction false} StartedOfSum(a: seq<Event>, b: seq<Event>)
    ensures StartedOf(a + b) == StartedOf(a) + StartedOf(b)
    decreases |b|
  {
    if b == [] {
      assert a + b == a;
    } else {
      var n := |b| - 1;
      assert (a + b)[..|a + b| - 1] == a + b[..n];
      StartedOfSum(a, b[..n]);
    }
  }

  lemma {:induction false} NoStarts(trace: seq<Event>, rank: nat)
    requires AllOfRank(trace, rank) && rank != 5
    ensures StartedOf(trace) == []
    decreases |trace|
  {
    if trace != [] {
      NoStarts(trace[..|trace| - 1], rank);
      assert trace[|trace| - 1].Rank() == rank;
    }
  }

  lemma {:induction false} StartsOfPhase(fs: seq<Facts>, n: nat, quids: seq<Quid>)
    requires Good(fs) && |quids| == |fs| && forall i :: 0 <= i < |fs| ==> quids[i].nick == fs[i].nick
    requires n <= |KeysAt(SaveAll(fs), 4)|
    ensures var t := SaveAll(fs); StartedOf(Trace(PhaseAt(t, 4), KeysAt(t, 4), n, quids)) == KeysAt(t, 4)[..n]
  {
    hide SaveAll, KeysAt, ApplyAll, EventsOne, StartedOf;
    var t := SaveAll(fs);
    var keys := KeysAt(t, 4);
    if n > 0 {
      StartsOfPhase(fs, n - 1, quids);
      EventsOfOne(fs, 4, n - 1, quids);
      StartedOfSum(Trace(PhaseAt(t, 4), keys, n - 1, quids), [Started(keys[n - 1])]);
      StartedOfOne(keys[n - 1]);
      assert keys[..n] == keys[..n - 1] + [keys[n - 1]];
    } else {
      NoStarts([], 0);
    }
  }

  lemma {:induction false} StartedOfOne(nick: string)
    ensures StartedOf([Started(nick)]) == [nick]
  {
    assert [Started(nick)][..0] == [];
  }

  lemma {:induction false} StartsOfPhases(t: Tree, quids: seq<Quid>, k: nat)
    requires k <= PHASES
    ensures StartedOf(TraceOf(t, quids, k)) ==
      if k <= 4 then []
      else StartedOf(Trace(PhaseAt(t, 4), KeysAt(t, 4), |KeysAt(t, 4)|, After(t, quids, 4)))
  {
    hide Trace, KeysAt, After, PhaseAt, StartedOf;
    if k == 0 {
      NoStarts([], 0);
    } else {
      StartsOfPhases(t, quids, k - 1);
      var last := Trace(PhaseAt(t, k - 1), KeysAt(t, k - 1), |KeysAt(t, k - 1)|, After(t, quids, k - 1));
      StartedOfSum(TraceOf(t, quids, k - 1), last);
      TraceRank(PhaseAt(t, k - 1), KeysAt(t, k - 1), |KeysAt(t, k - 1)|, After(t, quids, k - 1));
      PhaseRank(t, k - 1);
      if k != 5 {
        NoStarts(last, k);
      }
    }
  }

  /** Loading a saved state starts exactly the quiddities that were started, once each, in the order of the tree. */
  lemma {:induction false} StartsInTreeOrder(kinds: Kinds, s: State, mid: State)
    requires Valid(kinds, s) && Drifted(AfterReset(s, true), mid)
    ensures var properties := GetTree(Saved(s), ".properties");
      StartedOf(LoadTrace(kinds, mid, Saved(s))) == Willing(properties, |properties.kids|)
  {
    hide TraceOf, CreateTrace, GetTree, CreateAll, Saved, SaveAll, KeysAt, PhaseAt, After, Trace, StartedOf, Willing;
    hide Entries;
    var t, fs := Saved(s), AllFacts(s);
    var quiddities := GetTree(t, ".quiddities");
    var n := |quiddities.kids|;
    var made := CreateAll(kinds, mid, quiddities, n).quids;
    CreateRank(kinds, mid, quiddities, n);
    NoStarts(CreateTrace(kinds, mid, quiddities, n), 0);
    StartedOfSum(CreateTrace(kinds, mid, quiddities, n), TraceOf(t, made, PHASES));
    StartsOfPhases(t, made, PHASES);
    NicksOfMade(kinds, s, mid);
    AllFactsAreGood(kinds, s);
    SavedIs(s);
    EachByItself(fs, made, 4);
    StartsOfPhase(fs, |KeysAt(t, 4)|, After(t, made, 4));
    assert KeysAt(t, 4)[..|KeysAt(t, 4)|] == KeysAt(t, 4);
    StartKeysAre(fs);
    Sections(fs);
  }
}
