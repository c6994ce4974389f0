/** Bundles: quiddity kinds made of other kinds by the configuration (switcher/switcher.cpp). */
module Bundles {

  /** What the description parser finds in a pipeline: the kinds it uses, in order. Absent: missing or empty. */
  datatype Pipeline = Absent | Malformed | Uses(kinds: seq<string>)

  datatype Bundle = Bundle(longName: string, description: string, pipeline: Pipeline)

  /** The children of the configuration's "bundle" section, in order. */
  type Config = seq<(string, Bundle)>

  datatype Option<T> = None | Some(value: T)

  /** The kinds of one switcher, in the order they were registered, the names documented in the process, and the
      bundles that were accepted, with the description each had then. */
  datatype State = State(kinds: seq<string>, docs: set<string>, accepted: Config)

  predicate Complete(name: string, b: Bundle) {
    '_' !in name && b.longName != "" && b.description != "" && b.pipeline != Absent
  }

  /** The parser checks the kinds only when it is given some. */
  predicate Parses(b: Bundle, kinds: seq<string>) {
    b.pipeline.Uses? && (kinds == [] || forall k :: k in b.pipeline.kinds ==> k in kinds)
  }

  function Register(s: State, name: string, b: Bundle): State {
    if !Complete(name, b) || !Parses(b, s.kinds) || name in s.docs then s
    else State(if name in s.kinds then s.kinds else s.kinds + [name], s.docs + {name}, s.accepted + [(name, b)])
  }

  /** The first n entries of a pass over the configuration. */
  function Pass(s: State, conf: Config, n: nat): State
    requires n <= |conf|
  {
    if n == 0 then s else Register(Pass(s, conf, n - 1), conf[n - 1].0, conf[n - 1].1)
  }

  function Passes(s: State, conf: Config, times: nat): State {
    if times == 0 then s else Pass(Passes(s, conf, times - 1), conf, |conf|)
  }

  // ---- Passes only add

  ghost predicate Grows(s: State, t: State) {
    && s.kinds <= t.kinds && s.docs <= t.docs && s.accepted <= t.accepted
    && (forall name :: name in t.docs && name !in s.docs ==> name in t.kinds)
    && (forall name :: name in t.kinds && name !in s.kinds ==> name in t.docs && name !in s.docs)
  }

  lemma {:induction false} GrowsOn(s: State, t: State, u: State)
    requires Grows(s, t) && Grows(t, u)
    ensures Grows(s, u)
  {
  }

  lemma {:induction false} PassGrows(s: State, conf: Config, n: nat)
    requires n <= |conf|
    ensures Grows(s, Pass(s, conf, n))
  {
    if n > 0 {
      PassGrows(s, conf, n - 1);
      var t := Pass(s, conf, n - 1);
      assert Grows(t, Register(t, conf[n - 1].0, conf[n - 1].1));
      GrowsOn(s, t, Pass(s, conf, n));
    }
  }

  /** Repeating the pass never takes anything back, and a name enters the kinds only together with the
      documentation. */
  lemma {:induction false} PassesGrow(s: State, conf: Config, times: nat)
    ensures Grows(s, Passes(s, conf, times))
  {
    if times > 0 {
      PassesGrow(s, conf, times - 1);
      PassGrows(Passes(s, conf, times - 1), conf, |conf|);
      GrowsOn(s, Passes(s, conf, times - 1), Passes(s, conf, times));
    }
  }

  /** A name that was documented before without being a kind here, say by another switcher of the process, is never
      registered. */
  lemma {:induction false} DocumentedElsewhereIsNeverAKind(s: State, conf: Config, times: nat, name: string)
    requires name in s.docs && name !in s.kinds
    ensures name !in Passes(s, conf, times).kinds
  {
    PassesGrow(s, conf, times);
  }

  // ---- Passes come to an end

  function Undocumented(s: State, conf: Config): set<string> {
    (set i | 0 <= i < |conf| :: conf[i].0) - s.docs
  }

  lemma {:induction false} NoMoreNames(conf: Config)
    ensures |set i | 0 <= i < |conf| :: conf[i].0| <= |conf|
    decreases |conf|
  {
    if conf != [] {
      var n := |conf| - 1;
      NoMoreNames(conf[..n]);
      assert (set i | 0 <= i < |conf| :: conf[i].0) ==
        (set i | 0 <= i < n :: conf[..n][i].0) + {conf[n].0};
    }
  }

  /** A pass that changes something documents one of the names of the configuration. */
  lemma {:induction false} ChangeDocuments(s: State, conf: Config, n: nat)
    requires n <= |conf|
    ensures Pass(s, conf, n) != s ==>
      exists i :: 0 <= i < n && conf[i].0 !in s.docs && conf[i].0 in Pass(s, conf, n).docs
  {
    if n > 0 {
      ChangeDocuments(s, conf, n - 1);
      var t := Pass(s, conf, n - 1);
      if t == s && Pass(s, conf, n) != s {
        assert conf[n - 1].0 !in s.docs && conf[n - 1].0 in Pass(s, conf, n).docs;
      }
    }
  }

  lemma {:induction false} FewerUndocumented(s: State, conf: Config)
    requires Pass(s, conf, |conf|) != s
    ensures |Undocumented(Pass(s, conf, |conf|), conf)| < |Undocumented(s, conf)|
  {
    var t := Pass(s, conf, |conf|);
    ChangeDocuments(s, conf, |conf|);
    PassGrows(s, conf, |conf|);
    var i :| 0 <= i < |conf| && conf[i].0 !in s.docs && conf[i].0 in t.docs;
    assert conf[i].0 in Undocumented(s, conf);
    SmallerSet(Undocumented(t, conf), Undocumented(s, conf), conf[i].0);
  }

  lemma {:induction false} SmallerSet(a: set<string>, b: set<string>, x: string)
    requires a <= b && x in b && x !in a
    ensures |a| < |b|
  {
    SubsetSize(a, b - {x});
  }

  lemma {:induction false} SubsetSize(a: set<string>, b: set<string>)
    requires a <= b
    ensures |a| <= |b|
  {
    if a != {} {
      var x :| x in a;
      SubsetSize(a - {x}, b - {x});
    }
  }

  predicate Stable(s: State, conf: Config) { Pass(s, conf, |conf|) == s }

  lemma {:induction false} StableOrFewer(s: State, conf: Config, times: nat)
    ensures Stable(Passes(s, conf, times), conf)
      || |Undocumented(Passes(s, conf, times), conf)| + times <= |Undocumented(s, conf)|
  {
    if times > 0 {
      StableOrFewer(s, conf, times - 1);
      var t := Passes(s, conf, times - 1);
      if !Stable(t, conf) {
        FewerUndocumented(t, conf);
      }
    }
  }

  /** After as many passes as there are bundles, another pass changes nothing. */
  lemma {:induction false} PassesStabilise(s: State, conf: Config)
    ensures Stable(Passes(s, conf, |conf|), conf)
  {
    var t := Passes(s, conf, |conf|);
    StableOrFewer(s, conf, |conf|);
    NoMoreNames(conf);
    SubsetSize(Undocumented(s, conf), set i | 0 <= i < |conf| :: conf[i].0);
    if !Stable(t, conf) {
      FewerUndocumented(t, conf);
      assert false;
    }
  }

  // ---- What the kinds are in the end

  /** A bundle that is complete, uses only kinds of the set, and was not documented elsewhere. */
  ghost predicate Due(ks: set<string>, s: State, name: string, b: Bundle) {
    && Complete(name, b) && b.pipeline.Uses? && (forall k :: k in b.pipeline.kinds ==> k in ks)
    && (name in s.docs ==> name in s.kinds)
  }

  /** A set of kinds that a switcher starting from s may not leave: it has the first kinds and all that are due. */
  ghost predicate Closed(ks: set<string>, s: State, conf: Config) {
    && (forall k :: k in s.kinds ==> k in ks)
    && (forall name, b :: (name, b) in conf && Due(ks, s, name, b) ==> name in ks)
  }

  lemma {:induction false} PassStaysIn(ks: set<string>, s: State, t: State, conf: Config, n: nat)
    requires Closed(ks, s, conf) && s.kinds != [] && n <= |conf|
    requires Grows(s, t) && forall k :: k in t.kinds ==> k in ks
    ensures forall k :: k in Pass(t, conf, n).kinds ==> k in ks
  {
    if n > 0 {
      PassStaysIn(ks, s, t, conf, n - 1);
      PassGrows(t, conf, n - 1);
      var u := Pass(t, conf, n - 1);
      var (name, b) := conf[n - 1];
      if Register(u, name, b).kinds != u.kinds {
        assert (name, b) in conf && Due(ks, s, name, b);
      }
    }
  }

  lemma {:induction false} PassesStayIn(ks: set<string>, s: State, conf: Config, times: nat)
    requires Closed(ks, s, conf) && s.kinds != []
    ensures forall k :: k in Passes(s, conf, times).kinds ==> k in ks
  {
    if times > 0 {
      PassesStayIn(ks, s, conf, times - 1);
      PassesGrow(s, conf, times - 1);
      PassStaysIn(ks, s, Passes(s, conf, times - 1), conf, |conf|);
    }
  }

  lemma {:induction false} StableAll(s: State, conf: Config, n: nat, i: nat)
    requires i < n <= |conf| && Pass(s, conf, n) == s
    ensures Register(s, conf[i].0, conf[i].1) == s
  {
    PassGrows(s, conf, n - 1);
    ChangeDocuments(s, conf, n - 1);
    assert Pass(s, conf, n - 1) == s;
    if i < n - 1 {
      StableAll(s, conf, n - 1, i);
    }
  }

  /** The final kinds: the least set with the first kinds in it that is closed. */
  lemma {:induction false} FinalKindsAreLeast(s: State, conf: Config, ks: set<string>)
    requires s.kinds != []
    ensures var final := set k | k in Passes(s, conf, |conf|).kinds;
      Closed(final, s, conf) && (Closed(ks, s, conf) ==> final <= ks)
  {
    var t := Passes(s, conf, |conf|);
    PassesStabilise(s, conf);
    PassesGrow(s, conf, |conf|);
    var final := set k | k in t.kinds;
    forall name, b | (name, b) in conf && Due(final, s, name, b) ensures name in t.kinds {
      var i :| 0 <= i < |conf| && conf[i] == (name, b);
      StableAll(t, conf, |conf|, i);
    }
    if Closed(ks, s, conf) {
      PassesStayIn(ks, s, conf, |conf|);
    }
  }

  /** A bundle that can be registered over some kinds, in so many words. */
  ghost predicate Ready(ks: set<string>, name: string, b: Bundle) {
    && '_' !in name && b.longName != "" && b.description != "" && b.pipeline.Uses?
    && forall k :: k in b.pipeline.kinds ==> k in ks
  }

  /** A name that is neither known nor documented becomes a kind exactly when some description of it has no underscore
      in the name, both texts, and a pipeline of kinds there are in the end. */
  lemma {:induction false} KindIff(s: State, conf: Config, name: string)
    requires s.kinds != [] && name !in s.docs && name !in s.kinds
    ensures var final := SetOf(Passes(s, conf, |conf|).kinds);
      name in final <==> exists b :: (name, b) in conf && Ready(final, name, b)
  {
    var final := SetOf(Passes(s, conf, |conf|).kinds);
    FinalKindsAreLeast(s, conf, final);
    if b :| (name, b) in conf && Ready(final, name, b) {
      assert Due(final, s, name, b);
    } else {
      NotDescribed(s, conf, name);
    }
  }

  lemma {:induction false} NotDescribed(s: State, conf: Config, name: string)
    requires s.kinds != [] && name !in s.docs && name !in s.kinds
    requires forall b :: (name, b) in conf ==> !Ready(SetOf(Passes(s, conf, |conf|).kinds), name, b)
    ensures name !in Passes(s, conf, |conf|).kinds
  {
    var final := SetOf(Passes(s, conf, |conf|).kinds);
    var others := final - {name};
    FinalKindsAreLeast(s, conf, others);
    forall m, b | (m, b) in conf && Due(others, s, m, b) ensures m in others {
      assert Due(final, s, m, b) && Ready(final, m, b);
    }
    assert Closed(others, s, conf);
  }

  /** The names of the first n entries that are kinds. */
  ghost function KindsOfFirst(conf: Config, n: nat, kinds: seq<string>): set<string>
    requires n <= |conf|
  {
    set j | 0 <= j < n && conf[j].0 in kinds :: conf[j].0
  }

  lemma {:induction false} KindsOfPass(s: State, conf: Config, n: nat)
    requires n <= |conf|
    ensures SetOf(Pass(s, conf, n).kinds) == SetOf(s.kinds) + KindsOfFirst(conf, n, Pass(s, conf, n).kinds)
  {
    if n > 0 {
      KindsOfPass(s, conf, n - 1);
      var t, u := Pass(s, conf, n - 1), Pass(s, conf, n);
      PassGrowsFrom(s, conf, n - 1, n);
      forall k | k in u.kinds ensures k in s.kinds || k in KindsOfFirst(conf, n, u.kinds) {
        if k in t.kinds && k !in s.kinds {
          assert k in SetOf(t.kinds) && k !in SetOf(s.kinds);
          assert k in KindsOfFirst(conf, n - 1, t.kinds);
          var j :| 0 <= j < n - 1 && conf[j].0 == k && conf[j].0 in t.kinds;
          assert conf[j].0 in u.kinds;
        } else if k !in t.kinds {
          assert conf[n - 1].0 == k;
        }
      }
      PassGrows(s, conf, n);
    }
  }

  /** What one pass makes a kind, entry by entry in the order of the configuration: a new name becomes one exactly when
      its bundle is ready over the kinds there were and those that entries before it have become. */
  lemma {:induction false} PassKindIff(s: State, conf: Config, i: nat)
    requires s.kinds != [] && DistinctNames(conf) && i < |conf|
    requires conf[i].0 !in s.docs && conf[i].0 !in s.kinds
    ensures var kinds := Pass(s, conf, |conf|).kinds;
      conf[i].0 in kinds <==> Ready(SetOf(s.kinds) + KindsOfFirst(conf, i, kinds), conf[i].0, conf[i].1)
  {
    var (name, b) := conf[i];
    var t, all := Pass(s, conf, i), Pass(s, conf, |conf|);
    PassGrows(s, conf, i);
    NotYet(s, conf, i, name);
    LaterLeaves(s, conf, i, |conf|);
    KindsOfPass(s, conf, i);
    SamePrefix(s, conf, i);
    assert SetOf(t.kinds) == SetOf(s.kinds) + KindsOfFirst(conf, i, all.kinds);
    assert name in Pass(s, conf, i + 1).kinds <==> Ready(SetOf(t.kinds), name, b);
  }

  /** Entries before leave a name alone, and so do entries after. */
  lemma {:induction false} NotYet(s: State, conf: Config, n: nat, name: string)
    requires n <= |conf| && name !in s.docs && name !in s.kinds
    requires forall j :: 0 <= j < n ==> conf[j].0 != name
    ensures name !in Pass(s, conf, n).docs && name !in Pass(s, conf, n).kinds
  {
    if n > 0 {
      NotYet(s, conf, n - 1, name);
    }
  }

  lemma {:induction false} LaterLeaves(s: State, conf: Config, i: nat, n: nat)
    requires DistinctNames(conf) && i < n <= |conf|
    ensures conf[i].0 in Pass(s, conf, n).kinds <==> conf[i].0 in Pass(s, conf, i + 1).kinds
    decreases n
  {
    if i + 1 < n {
      LaterLeaves(s, conf, i, n - 1);
      assert conf[n - 1].0 != conf[i].0;
    }
  }

  lemma {:induction false} SamePrefix(s: State, conf: Config, i: nat)
    requires DistinctNames(conf) && i <= |conf|
    ensures KindsOfFirst(conf, i, Pass(s, conf, i).kinds) == KindsOfFirst(conf, i, Pass(s, conf, |conf|).kinds)
  {
    forall j | 0 <= j < i ensures conf[j].0 in Pass(s, conf, i).kinds <==> conf[j].0 in Pass(s, conf, |conf|).kinds {
      LaterLeaves(s, conf, j, i);
      LaterLeaves(s, conf, j, |conf|);
    }
  }

  lemma {:induction false} PassGrowsFrom(s: State, conf: Config, i: nat, n: nat)
    requires i <= n <= |conf|
    ensures Grows(Pass(s, conf, i), Pass(s, conf, n))
    decreases n
  {
    if i < n {
      var t := Pass(s, conf, n - 1);
      PassGrowsFrom(s, conf, i, n - 1);
      assert Grows(t, Register(t, conf[n - 1].0, conf[n - 1].1));
      GrowsOn(Pass(s, conf, i), t, Pass(s, conf, n));
    }
  }

  /** One pass registers every bundle that uses only kinds there are. */
  lemma {:induction false} PassRegisters(s: State, conf: Config, name: string, b: Bundle)
    requires (name, b) in conf && Ready(SetOf(s.kinds), name, b) && (name in s.docs ==> name in s.kinds)
    ensures name in Pass(s, conf, |conf|).kinds
  {
    var i :| 0 <= i < |conf| && conf[i] == (name, b);
    var u := Pass(s, conf, i);
    PassGrows(s, conf, i);
    assert name in Pass(s, conf, i + 1).kinds;
    PassGrowsFrom(s, conf, i + 1, |conf|);
  }

  lemma {:induction false} SameEntriesClosed(ks: set<string>, s: State, conf: Config, other: Config)
    requires Closed(ks, s, conf) && forall e :: e in other ==> e in conf
    ensures Closed(ks, s, other)
  {
  }

  /** The order of the configuration decides how many passes it takes, not what comes out. */
  lemma {:induction false} OrderDoesNotMatter(s: State, conf: Config, other: Config, k: string)
    requires s.kinds != [] && forall e :: e in conf <==> e in other
    ensures k in Passes(s, conf, |conf|).kinds <==> k in Passes(s, other, |other|).kinds
  {
    var final, final' := set x | x in Passes(s, conf, |conf|).kinds, set x | x in Passes(s, other, |other|).kinds;
    FinalKindsAreLeast(s, conf, final');
    FinalKindsAreLeast(s, other, final);
    SameEntriesClosed(final', s, other, conf);
    SameEntriesClosed(final, s, conf, other);
    assert final == final';
    assert k in final <==> k in final';
  }

  // ---- Histories

  ghost predicate DistinctNames(conf: Config) {
    forall i, j :: 0 <= i < j < |conf| ==> conf[i].0 != conf[j].0
  }

  predicate HasName(conf: Config, name: string) {
    exists i :: 0 <= i < |conf| && conf[i].0 == name
  }

  /** New entries come last; entries that are there are skipped. */
  function Merged(conf: Config, more: Config, n: nat): Config
    requires n <= |more|
  {
    if n == 0 then conf
    else
      var before := Merged(conf, more, n - 1);
      if HasName(before, more[n - 1].0) then before else before + [more[n - 1]]
  }

  /** Loading more bundles never alters an entry, and each new name is there afterwards. */
  lemma {:induction false} MergeKeepsEntries(conf: Config, more: Config, n: nat)
    requires n <= |more| && DistinctNames(conf)
    ensures conf <= Merged(conf, more, n) && DistinctNames(Merged(conf, more, n))
    ensures forall i :: 0 <= i < n ==> HasName(Merged(conf, more, n), more[i].0)
    ensures forall i :: |conf| <= i < |Merged(conf, more, n)| ==> Merged(conf, more, n)[i] in more[..n]
  {
    if n > 0 {
      MergeKeepsEntries(conf, more, n - 1);
      var before, after := Merged(conf, more, n - 1), Merged(conf, more, n);
      assert more[..n] == more[..n - 1] + [more[n - 1]];
      forall i | 0 <= i < n ensures HasName(after, more[i].0) {
        if i < n - 1 {
          var j :| 0 <= j < |before| && before[j].0 == more[i].0;
          assert after[j] == before[j];
        } else if !HasName(before, more[i].0) {
          assert after[|before|].0 == more[i].0;
        }
      }
    }
  }

  /** What a configuration file says about one bundle: only the fields it has. */
  datatype Patch = Patch(longName: Option<string>, description: Option<string>, pipeline: Option<Pipeline>)

  function PatchedBundle(b: Bundle, p: Patch): Bundle {
    Bundle(if p.longName.Some? then p.longName.value else b.longName,
           if p.description.Some? then p.description.value else b.description,
           if p.pipeline.Some? then p.pipeline.value else b.pipeline)
  }

  function EntryIndex(conf: Config, name: string): (i: nat)
    ensures i <= |conf|
    ensures i < |conf| ==> conf[i].0 == name
    ensures forall j :: 0 <= j < i ==> conf[j].0 != name
  {
    if conf == [] || conf[0].0 == name then 0 else 1 + EntryIndex(conf[1..], name)
  }

  function PatchedEntry(conf: Config, name: string, p: Patch): Config {
    var i := EntryIndex(conf, name);
    if i < |conf| then conf[i := (name, PatchedBundle(conf[i].1, p))]
    else conf + [(name, PatchedBundle(Bundle("", "", Absent), p))]
  }

  /** Merging a file: what it has replaces what was there, field by field. */
  function Patched(conf: Config, patches: seq<(string, Patch)>, n: nat): Config
    requires n <= |patches|
  {
    if n == 0 then conf else PatchedEntry(Patched(conf, patches, n - 1), patches[n - 1].0, patches[n - 1].1)
  }

  function Pruned(conf: Config, name: string): Config {
    var i := EntryIndex(conf, name);
    if i < |conf| then conf[..i] + conf[i + 1..] else conf
  }

  datatype Op =
    | Repeat                                   // a pass for whatever reason
    | Load(more: Config)                       // load_bundle_from_config
    | Reload(patches: seq<(string, Patch)>)    // a configuration file
    | Plugin(kind: string)
    | ReplaceSection(conf: Config)             // register_bundle
    | Prune(name: string)                      // unregister_bundle

  /** plain: the kinds that are not bundles, built in or from plugins. */
  datatype System = System(conf: Config, s: State, plain: set<string>)

  function AfterPlugin(s: State, kind: string): State {
    s.(kinds := if kind in s.kinds then s.kinds else s.kinds + [kind], docs := s.docs + {kind})
  }

  /** A load makes two passes: the new configuration makes one when it is taken over. */
  function Step(y: System, op: Op): System {
    match op
    case Repeat => y.(s := Pass(y.s, y.conf, |y.conf|))
    case Load(more) =>
      var conf := Merged(y.conf, more, |more|);
      if conf == y.conf then y else y.(conf := conf, s := Passes(y.s, conf, 2))
    case Reload(patches) =>
      var conf := Patched(y.conf, patches, |patches|);
      y.(conf := conf, s := Pass(y.s, conf, |conf|))
    case Plugin(kind) => y.(s := AfterPlugin(y.s, kind), plain := y.plain + {kind})
    case ReplaceSection(conf) => y.(conf := conf)
    case Prune(name) => y.(conf := Pruned(y.conf, name))
  }

  function Run(y: System, ops: seq<Op>): System
    decreases ops
  {
    if ops == [] then y else Run(Step(y, ops[0]), ops[1..])
  }

  /** A switcher as its constructor finds it: the kinds of its factory, all documented. */
  ghost predicate Fresh(y: System) {
    && y.s.kinds != [] && y.s.accepted == [] && DistinctKinds(y.s.kinds)
    && (forall k :: k in y.s.kinds <==> k in y.plain) && y.plain <= y.s.docs
  }

  ghost predicate DistinctKinds(kinds: seq<string>) {
    forall p, q :: 0 <= p < q < |kinds| ==> kinds[p] != kinds[q]
  }

  /** Entry i describes the kind at position p, and uses only kinds registered before it. */
  ghost predicate Describes(accepted: Config, kinds: seq<string>, i: nat, p: nat)
    requires p < |kinds|
  {
    && i < |accepted| && accepted[i].0 == kinds[p] && accepted[i].1.pipeline.Uses?
    && forall k :: k in accepted[i].1.pipeline.kinds ==> k in kinds[..p]
  }

  ghost predicate Described(accepted: Config, kinds: seq<string>, p: nat)
    requires p < |kinds|
  {
    exists i: nat :: Describes(accepted, kinds, i, p)
  }

  /** Every kind is plain, or a bundle that was accepted using only kinds registered strictly before it. */
  ghost predicate Founded(s: State, plain: set<string>) {
    && s.kinds != [] && DistinctKinds(s.kinds)
    && (forall k :: k in plain ==> k in s.kinds)
    && (forall k :: k in s.kinds ==> k in s.docs)
    && (forall p :: 0 <= p < |s.kinds| ==> s.kinds[p] in plain || Described(s.accepted, s.kinds, p))
  }

  lemma {:induction false} DescribedStill(s: State, t: State, p: nat)
    requires p < |s.kinds| && s.kinds <= t.kinds && s.accepted <= t.accepted && Described(s.accepted, s.kinds, p)
    ensures Described(t.accepted, t.kinds, p)
  {
    var i: nat :| Describes(s.accepted, s.kinds, i, p);
    assert t.kinds[..p] == s.kinds[..p];
    assert Describes(t.accepted, t.kinds, i, p);
  }

  lemma {:induction false} RegisterKeepsFounded(s: State, name: string, b: Bundle, plain: set<string>)
    requires Founded(s, plain)
    ensures Founded(Register(s, name, b), plain)
  {
    var t := Register(s, name, b);
    if t != s {
      assert name !in s.kinds;
      var p := |s.kinds|;
      assert t.kinds[..p] == s.kinds;
      assert Describes(t.accepted, t.kinds, |s.accepted|, p);
      forall q | 0 <= q < |t.kinds| ensures t.kinds[q] in plain || Described(t.accepted, t.kinds, q) {
        if q < p && s.kinds[q] !in plain {
          DescribedStill(s, t, q);
        }
      }
    }
  }

  lemma {:induction false} PassKeepsFounded(s: State, conf: Config, n: nat, plain: set<string>)
    requires n <= |conf| && Founded(s, plain)
    ensures Founded(Pass(s, conf, n), plain)
  {
    if n > 0 {
      PassKeepsFounded(s, conf, n - 1, plain);
      RegisterKeepsFounded(Pass(s, conf, n - 1), conf[n - 1].0, conf[n - 1].1, plain);
    }
  }

  lemma {:induction false} PassesKeepFounded(s: State, conf: Config, times: nat, plain: set<string>)
    requires Founded(s, plain)
    ensures Founded(Passes(s, conf, times), plain)
  {
    if times > 0 {
      PassesKeepFounded(s, conf, times - 1, plain);
      PassKeepsFounded(Passes(s, conf, times - 1), conf, |conf|, plain);
    }
  }

  lemma {:induction false} PluginKeepsFounded(s: State, kind: string, plain: set<string>)
    requires Founded(s, plain)
    ensures Founded(AfterPlugin(s, kind), plain + {kind})
  {
    var t := AfterPlugin(s, kind);
    forall q | 0 <= q < |t.kinds| ensures t.kinds[q] in plain + {kind} || Described(t.accepted, t.kinds, q) {
      if q < |s.kinds| && s.kinds[q] !in plain {
        DescribedStill(s, t, q);
      }
    }
  }

  /** In every history, plugins and changed configurations included, each bundle was accepted, by the description it
      had then, using only kinds registered strictly before it. */
  lemma {:induction false} HistoriesAreFounded(y: System, ops: seq<Op>)
    requires Founded(y.s, y.plain)
    ensures Founded(Run(y, ops).s, Run(y, ops).plain)
    decreases ops
  {
    if ops != [] {
      match ops[0] {
        case Repeat => PassKeepsFounded(y.s, y.conf, |y.conf|, y.plain);
        case Load(more) => PassesKeepFounded(y.s, Merged(y.conf, more, |more|), 2, y.plain);
        case Reload(patches) =>
          var conf := Patched(y.conf, patches, |patches|);
          PassKeepsFounded(y.s, conf, |conf|, y.plain);
        case Plugin(kind) => PluginKeepsFounded(y.s, kind, y.plain);
        case _ =>
      }
      HistoriesAreFounded(Step(y, ops[0]), ops[1..]);
    }
  }

  lemma {:induction false} FreshIsFounded(y: System)
    requires Fresh(y)
    ensures Founded(y.s, y.plain)
  {
    assert y.s.kinds[0] in y.plain;
  }

  /** The descriptions recorded are those of the configuration at the pass that accepted them. */
  lemma {:induction false} AcceptedAsConfigured(s: State, conf: Config, n: nat)
    requires n <= |conf|
    ensures s.accepted <= Pass(s, conf, n).accepted
    ensures forall i :: |s.accepted| <= i < |Pass(s, conf, n).accepted| ==>
      var (name, b) := Pass(s, conf, n).accepted[i];
      (name, b) in conf[..n] && Complete(name, b)
  {
    if n > 0 {
      AcceptedAsConfigured(s, conf, n - 1);
      assert conf[..n] == conf[..n - 1] + [conf[n - 1]];
    }
  }

  // ---- What one step does

  /** A load that adds something reaches two deep: bundles of kinds there are, and bundles of these. */
  lemma {:induction false} LoadRegistersTwice(y: System, more: Config, name: string, b: Bundle)
    requires var z := Step(y, Load(more));
      && z.conf != y.conf && (name, b) in z.conf && (name in y.s.docs ==> name in y.s.kinds)
      && Ready(SetOf(y.s.kinds) + Direct(y.s, z.conf), name, b)
    ensures name in Step(y, Load(more)).s.kinds
  {
    hide Ready;
    var conf := Step(y, Load(more)).conf;
    var t := Pass(y.s, conf, |conf|);
    PassGrows(y.s, conf, |conf|);
    forall k | k in Direct(y.s, conf) ensures k in t.kinds {
      var c :| (k, c) in conf && Ready(SetOf(y.s.kinds), k, c) && (k in y.s.docs ==> k in y.s.kinds);
      PassRegisters(y.s, conf, k, c);
    }
    ReadyOverMore(SetOf(y.s.kinds) + Direct(y.s, conf), SetOf(t.kinds), name, b);
    TwoPasses(y.s, conf);
    PassRegisters(t, conf, name, b);
  }

  /** The names in a configuration that a first pass can register. */
  ghost function Direct(s: State, conf: Config): set<string> {
    set e | e in conf && Ready(SetOf(s.kinds), e.0, e.1) && (e.0 in s.docs ==> e.0 in s.kinds) :: e.0
  }

  lemma {:induction false} ReadyOverMore(ks: set<string>, more: set<string>, name: string, b: Bundle)
    requires Ready(ks, name, b) && ks <= more
    ensures Ready(more, name, b)
  {
  }

  /** A pruned name is gone; all other entries stay, and no kind is lost. */
  lemma {:induction false} PruneTakesOne(y: System, name: string, e: (string, Bundle))
    requires DistinctNames(y.conf)
    ensures var z := Step(y, Prune(name));
      && DistinctNames(z.conf) && (e in z.conf <==> e in y.conf && e.0 != name)
      && z.s == y.s && z.plain == y.plain
  {
    var conf, i := y.conf, EntryIndex(y.conf, name);
    if i < |conf| {
      CutEntry(conf, i, e);
    } else if e in conf {
      var k :| 0 <= k < |conf| && conf[k] == e;
    }
  }

  lemma {:induction false} CutEntry(conf: Config, i: nat, e: (string, Bundle))
    requires DistinctNames(conf) && i < |conf|
    ensures var left := conf[..i] + conf[i + 1..];
      DistinctNames(left) && (e in left <==> e in conf && e.0 != conf[i].0)
  {
    var left := conf[..i] + conf[i + 1..];
    assert forall k :: 0 <= k < |left| ==> left[k] == conf[if k < i then k else k + 1];
    if e in conf {
      var k :| 0 <= k < |conf| && conf[k] == e;
      if k != i {
        assert left[if k < i then k else k - 1] == e;
      }
    }
  }

  predicate Says<T>(patches: seq<(string, Patch)>, i: nat, name: string, get: Patch -> Option<T>)
    requires i < |patches|
  {
    patches[i].0 == name && get(patches[i].1).Some?
  }

  /** A field is what the last of the first n patches says of it, or as it was when none says anything. */
  ghost predicate FieldIs<T(!new)>(patches: seq<(string, Patch)>, n: nat, name: string, get: Patch -> Option<T>,
      was: T, now: T)
    requires n <= |patches|
  {
    || (now == was && forall j :: 0 <= j < n ==> !Says(patches, j, name, get))
    || (exists i :: 0 <= i < n && LastSaid(patches, i, n, name, get) && get(patches[i].1) == Some(now))
  }

  ghost predicate LastSaid<T>(patches: seq<(string, Patch)>, i: nat, n: nat, name: string, get: Patch -> Option<T>)
    requires i < n <= |patches|
  {
    Says(patches, i, name, get) && forall j :: i < j < n ==> !Says(patches, j, name, get)
  }

  lemma {:induction false} FieldNext<T(!new)>(patches: seq<(string, Patch)>, n: nat, name: string,
      get: Patch -> Option<T>, was: T, now: T)
    requires n < |patches| && FieldIs(patches, n, name, get, was, now)
    ensures FieldIs(patches, n + 1, name, get, was,
                    if Says(patches, n, name, get) then get(patches[n].1).value else now)
  {
    if Says(patches, n, name, get) {
      assert LastSaid(patches, n, n + 1, name, get);
    } else if i :| 0 <= i < n && LastSaid(patches, i, n, name, get) && get(patches[i].1) == Some(now) {
      assert LastSaid(patches, i, n + 1, name, get);
    }
  }

  ghost predicate FieldsAre(patches: seq<(string, Patch)>, n: nat, name: string, was: Bundle, now: Bundle)
    requires n <= |patches|
  {
    && FieldIs(patches, n, name, (p: Patch) => p.longName, was.longName, now.longName)
    && FieldIs(patches, n, name, (p: Patch) => p.description, was.description, now.description)
    && FieldIs(patches, n, name, (p: Patch) => p.pipeline, was.pipeline, now.pipeline)
  }

  lemma {:induction false} FieldsNext(patches: seq<(string, Patch)>, n: nat, name: string, was: Bundle, now: Bundle)
    requires n < |patches| && FieldsAre(patches, n, name, was, now)
    ensures FieldsAre(patches, n + 1, name, was,
                      if patches[n].0 == name then PatchedBundle(now, patches[n].1) else now)
  {
    hide FieldIs;
    FieldNext(patches, n, name, (p: Patch) => p.longName, was.longName, now.longName);
    FieldNext(patches, n, name, (p: Patch) => p.description, was.description, now.description);
    FieldNext(patches, n, name, (p: Patch) => p.pipeline, was.pipeline, now.pipeline);
  }

  lemma {:induction false} NothingSaid(patches: seq<(string, Patch)>, n: nat, name: string, b: Bundle)
    requires n <= |patches| && forall j :: 0 <= j < n ==> patches[j].0 != name
    ensures FieldsAre(patches, n, name, b, b)
  {
  }

  /** What was there of an entry: nothing for one that is new. */
  function Before(conf: Config, i: nat): Bundle {
    if i < |conf| then conf[i].1 else Bundle("", "", Absent)
  }

  ghost predicate MergedInto(conf: Config, patches: seq<(string, Patch)>, n: nat, r: Config)
    requires n <= |patches|
  {
    && |conf| <= |r| && DistinctNames(r)
    && (forall i :: 0 <= i < |conf| ==> r[i].0 == conf[i].0)
    && (forall i :: 0 <= i < |r| ==> FieldsAre(patches, n, r[i].0, Before(conf, i), r[i].1))
    && (forall i :: |conf| <= i < |r| ==> exists j :: 0 <= j < n && patches[j].0 == r[i].0)
    && (forall j :: 0 <= j < n ==> HasName(r, patches[j].0))
  }

  lemma {:induction false} MergeNext(conf: Config, patches: seq<(string, Patch)>, n: nat, r: Config)
    requires n < |patches| && MergedInto(conf, patches, n, r)
    ensures MergedInto(conf, patches, n + 1, PatchedEntry(r, patches[n].0, patches[n].1))
  {
    hide FieldsAre, PatchedBundle;
    var (name, p) := patches[n];
    var k, next := EntryIndex(r, name), PatchedEntry(r, name, p);
    if k == |r| {
      NothingSaid(patches, n, name, Before(conf, k));
    }
    forall i | 0 <= i < |next| ensures FieldsAre(patches, n + 1, next[i].0, Before(conf, i), next[i].1) {
      FieldsNext(patches, n, next[i].0, Before(conf, i), if i < |r| then r[i].1 else Bundle("", "", Absent));
    }
    forall j | 0 <= j < n + 1 ensures HasName(next, patches[j].0) {
      if j < n {
        var i :| 0 <= i < |r| && r[i].0 == patches[j].0;
        assert next[i].0 == patches[j].0;
      } else {
        assert next[k].0 == name;
      }
    }
    forall i | |conf| <= i < |next| ensures exists j :: 0 <= j < n + 1 && patches[j].0 == next[i].0 {
      if i < |r| {
        var j :| 0 <= j < n && patches[j].0 == r[i].0;
        assert patches[j].0 == next[i].0;
      } else {
        assert patches[n].0 == next[i].0;
      }
    }
  }

  lemma {:induction false} MergesAll(conf: Config, patches: seq<(string, Patch)>, n: nat)
    requires n <= |patches| && DistinctNames(conf)
    ensures MergedInto(conf, patches, n, Patched(conf, patches, n))
  {
    hide MergedInto, PatchedEntry;
    if n > 0 {
      MergesAll(conf, patches, n - 1);
      MergeNext(conf, patches, n - 1, Patched(conf, patches, n - 1));
    } else {
      NoPatch(conf, patches);
    }
  }

  lemma {:induction false} NoPatch(conf: Config, patches: seq<(string, Patch)>)
    requires DistinctNames(conf)
    ensures MergedInto(conf, patches, 0, conf)
  {
    hide FieldsAre;
    forall i | 0 <= i < |conf| ensures FieldsAre(patches, 0, conf[i].0, Before(conf, i), conf[i].1) {
      NothingSaid(patches, 0, conf[i].0, conf[i].1);
    }
  }

  /** The configuration after a file: names stay different, entries keep their places and new ones follow, one for each
      name of the file that had none; a field is what the file says, else as it was, else blank. */
  lemma {:induction false} FileIsMerged(y: System, patches: seq<(string, Patch)>, i: nat)
    requires DistinctNames(y.conf) && i < |Step(y, Reload(patches)).conf|
    ensures var r := Step(y, Reload(patches)).conf;
      && |y.conf| <= |r| && DistinctNames(r)
      && FieldsAre(patches, |patches|, r[i].0, Before(y.conf, i), r[i].1)
      && (i < |y.conf| ==> r[i].0 == y.conf[i].0)
      && (i < |y.conf| && (forall j :: 0 <= j < |patches| ==> patches[j].0 != r[i].0) ==> r[i] == y.conf[i])
      && (i >= |y.conf| ==> exists j :: 0 <= j < |patches| && patches[j].0 == r[i].0)
      && (forall j :: 0 <= j < |patches| ==> HasName(r, patches[j].0))
  {
    hide Pass, Patched;
    MergesAll(y.conf, patches, |patches|);
  }

  /** A file that describes a bundle completely, out of kinds there are, makes it a kind unless its name is documented
      elsewhere; whether or not there was an entry for it. */
  lemma {:induction false} FileAddsKind(y: System, patches: seq<(string, Patch)>, i: nat, b: Bundle)
    requires DistinctNames(y.conf) && i < |patches|
    requires patches[i].1 == Patch(Some(b.longName), Some(b.description), Some(b.pipeline))
    requires forall j :: 0 <= j < |patches| && j != i ==> patches[j].0 != patches[i].0
    requires Ready(SetOf(y.s.kinds), patches[i].0, b)
    requires patches[i].0 in y.s.docs ==> patches[i].0 in y.s.kinds
    ensures patches[i].0 in Step(y, Reload(patches)).s.kinds
  {
    hide Pass, Patched, Ready, MergedInto;
    var name, r := patches[i].0, Step(y, Reload(patches)).conf;
    MergesAll(y.conf, patches, |patches|);
    var k := EntryOfPatch(y.conf, patches, r, i);
    WholeEntry(patches, i, Before(y.conf, k), r[k].1, b);
    assert r[k] == (name, b);
    PassRegisters(y.s, r, name, b);
  }

  lemma {:induction false} EntryOfPatch(conf: Config, patches: seq<(string, Patch)>, r: Config, i: nat) returns (k: nat)
    requires MergedInto(conf, patches, |patches|, r) && i < |patches|
    ensures k < |r| && r[k].0 == patches[i].0 && FieldsAre(patches, |patches|, r[k].0, Before(conf, k), r[k].1)
  {
    hide FieldsAre;
    assert HasName(r, patches[i].0);
    k :| 0 <= k < |r| && r[k].0 == patches[i].0;
  }

  lemma {:induction false} WholeEntry(patches: seq<(string, Patch)>, i: nat, was: Bundle, now: Bundle, b: Bundle)
    requires i < |patches| && FieldsAre(patches, |patches|, patches[i].0, was, now)
    requires patches[i].1 == Patch(Some(b.longName), Some(b.description), Some(b.pipeline))
    requires forall j :: 0 <= j < |patches| && j != i ==> patches[j].0 != patches[i].0
    ensures now == b
  {
    var name := patches[i].0;
    assert Says(patches, i, name, (p: Patch) => p.longName);
    assert Says(patches, i, name, (p: Patch) => p.description);
    assert Says(patches, i, name, (p: Patch) => p.pipeline);
  }

  // ---- The descriptions there are now

  /** Ranks by which names come down to plain kinds, through the descriptions of a configuration. */
  ghost predicate Ranks(conf: Config, plain: set<string>, rank: map<string, nat>) {
    forall name :: name in rank ==> name in plain || RankedBy(conf, plain, rank, name)
  }

  ghost predicate RankedBy(conf: Config, plain: set<string>, rank: map<string, nat>, name: string)
    requires name in rank
  {
    exists b :: (name, b) in conf && Complete(name, b) && b.pipeline.Uses? && Lower(plain, rank, b, rank[name])
  }

  ghost predicate Lower(plain: set<string>, rank: map<string, nat>, b: Bundle, r: nat)
    requires b.pipeline.Uses?
  {
    forall k :: k in b.pipeline.kinds ==> k in plain || (k in rank && rank[k] < r)
  }

  /** The kinds come down to plain ones by the present descriptions. */
  ghost predicate WellFounded(conf: Config, plain: set<string>, kinds: set<string>) {
    exists rank: map<string, nat> :: Ranks(conf, plain, rank) && kinds <= rank.Keys
  }

  function SetOf(kinds: seq<string>): set<string> { set k | k in kinds }

  /** What a switcher with just the plain kinds, none of the bundles documented, would register in the end. */
  function FromPlain(conf: Config, plain: seq<string>): seq<string> {
    Passes(State(plain, {}, []), conf, |conf|).kinds
  }

  lemma {:induction false} RankedAreRegistered(conf: Config, plain: seq<string>, rank: map<string, nat>, name: string)
    requires plain != [] && Ranks(conf, SetOf(plain), rank) && name in rank
    ensures name in FromPlain(conf, plain)
    decreases rank[name]
  {
    var s, base := State(plain, {}, []), SetOf(plain);
    var final := SetOf(FromPlain(conf, plain));
    FinalKindsAreLeast(s, conf, {});
    if name !in base {
      assert RankedBy(conf, base, rank, name);
      var b :| (name, b) in conf && Complete(name, b) && b.pipeline.Uses? && Lower(base, rank, b, rank[name]);
      forall k | k in b.pipeline.kinds ensures k in final {
        if k in base {
          assert k in s.kinds;
        } else {
          RankedAreRegistered(conf, plain, rank, k);
        }
      }
      assert Due(final, s, name, b);
    } else {
      assert name in s.kinds;
    }
  }

  lemma {:induction false} RegisteredAreRanked(conf: Config, plain: seq<string>)
    requires plain != []
    ensures WellFounded(conf, SetOf(plain), SetOf(FromPlain(conf, plain)))
  {
    var kinds, base := FromPlain(conf, plain), SetOf(plain);
    var rank := map k | k in kinds :: Position(kinds, k);
    forall name | name in rank && name !in base ensures RankedBy(conf, base, rank, name) {
      var b := RegisteredDescribed(conf, plain, |conf|, name);
      assert Lower(base, rank, b, rank[name]) by {
        forall k | k in b.pipeline.kinds ensures k in rank && rank[k] < rank[name] {
          PositionBefore(kinds, k, Position(kinds, name));
        }
      }
    }
    assert Ranks(conf, base, rank);
  }

  /** A bundle that a switcher with the plain kinds registers has a description, of kinds before it. */
  lemma {:induction false} RegisteredDescribed(conf: Config, plain: seq<string>, times: nat, name: string)
    returns (b: Bundle)
    requires plain != [] && name !in plain && name in Passes(State(plain, {}, []), conf, times).kinds
    ensures (name, b) in conf && Complete(name, b) && b.pipeline.Uses?
    ensures var kinds := Passes(State(plain, {}, []), conf, times).kinds;
      forall k :: k in b.pipeline.kinds ==> k in kinds[..Position(kinds, name)]
  {
    var t := Passes(State(plain, {}, []), conf, times - 1);
    if name in t.kinds {
      b := RegisteredDescribed(conf, plain, times - 1, name);
      PassGrows(t, conf, |conf|);
      SamePosition(t.kinds, Passes(State(plain, {}, []), conf, times).kinds, name);
    } else {
      PassesGrow(State(plain, {}, []), conf, times - 1);
      b := RegisteredInPass(t, conf, |conf|, name);
    }
  }

  lemma {:induction false} RegisteredInPass(t: State, conf: Config, n: nat, name: string) returns (b: Bundle)
    requires n <= |conf| && t.kinds != [] && name !in t.kinds && name in Pass(t, conf, n).kinds
    ensures (name, b) in conf && Complete(name, b) && b.pipeline.Uses?
    ensures var kinds := Pass(t, conf, n).kinds;
      forall k :: k in b.pipeline.kinds ==> k in kinds[..Position(kinds, name)]
  {
    var u, kinds := Pass(t, conf, n - 1), Pass(t, conf, n).kinds;
    PassGrows(t, conf, n - 1);
    if name in u.kinds {
      b := RegisteredInPass(t, conf, n - 1, name);
      SamePosition(u.kinds, kinds, name);
    } else {
      b := conf[n - 1].1;
      assert kinds == u.kinds + [name];
      LastPosition(u.kinds, name);
      assert kinds[..|u.kinds|] == u.kinds;
    }
  }

  lemma {:induction false} SamePosition(kinds: seq<string>, more: seq<string>, kind: string)
    requires kinds <= more && kind in kinds
    ensures kind in more && Position(more, kind) == Position(kinds, kind)
    ensures more[..Position(kinds, kind)] == kinds[..Position(kinds, kind)]
  {
    assert more[Position(kinds, kind)] == kind;
    assert forall q :: 0 <= q < |kinds| ==> more[q] == kinds[q];
  }

  lemma {:induction false} LastPosition(kinds: seq<string>, kind: string)
    requires kind !in kinds
    ensures Position(kinds + [kind], kind) == |kinds|
  {
    assert (kinds + [kind])[|kinds|] == kind;
  }

  /** Exactly when the present descriptions still bring some kinds down to plain ones: a switcher that starts with the
      plain kinds would register them all. */
  lemma {:induction false} WellFoundedIff(conf: Config, plain: seq<string>, kinds: set<string>)
    requires plain != []
    ensures WellFounded(conf, SetOf(plain), kinds) <==> forall k :: k in kinds ==> k in FromPlain(conf, plain)
  {
    var base, from := SetOf(plain), FromPlain(conf, plain);
    if WellFounded(conf, base, kinds) {
      var rank: map<string, nat> :| Ranks(conf, base, rank) && kinds <= rank.Keys;
      forall k | k in kinds ensures k in from {
        RankedAreRegistered(conf, plain, rank, k);
      }
    } else {
      RegisteredAreRanked(conf, plain);
      var rank: map<string, nat> :| Ranks(conf, base, rank) && SetOf(from) <= rank.Keys;
      assert !(kinds <= rank.Keys);
    }
  }

  /** The descriptions that bundles were accepted with are still there. */
  ghost predicate StillConfigured(s: State, conf: Config) {
    forall name, b :: (name, b) in s.accepted ==> (name, b) in conf && Complete(name, b)
  }

  lemma {:induction false} PassKeepsConfigured(s: State, conf: Config)
    requires StillConfigured(s, conf)
    ensures StillConfigured(Pass(s, conf, |conf|), conf)
  {
    var t := Pass(s, conf, |conf|);
    AcceptedAsConfigured(s, conf, |conf|);
    forall name, b | (name, b) in t.accepted ensures (name, b) in conf && Complete(name, b) {
      var i :| 0 <= i < |t.accepted| && t.accepted[i] == (name, b);
      if i < |s.accepted| {
        assert s.accepted[i] == (name, b) && s.accepted[i] in s.accepted;
      }
    }
  }

  lemma {:induction false} FoundedIsWellFounded(s: State, conf: Config, plain: set<string>)
    requires Founded(s, plain) && StillConfigured(s, conf)
    ensures WellFounded(conf, plain, SetOf(s.kinds))
  {
    var rank := map k | k in s.kinds :: Position(s.kinds, k);
    forall name | name in rank && name !in plain ensures RankedBy(conf, plain, rank, name) {
      var p := Position(s.kinds, name);
      var i := EntryOf(s, plain, p);
      var b := s.accepted[i].1;
      assert s.accepted[i] == (name, b) && s.accepted[i] in s.accepted;
      forall k | k in b.pipeline.kinds ensures k in rank && rank[k] < rank[name] {
        PositionBefore(s.kinds, k, p);
      }
      assert Lower(plain, rank, b, rank[name]);
    }
    assert Ranks(conf, plain, rank);
  }

  /** As long as descriptions are only added, the present ones bring every kind down to plain ones. */
  lemma {:induction false} AddingStaysWellFounded(y: System, ops: seq<Op>)
    requires Founded(y.s, y.plain) && StillConfigured(y.s, y.conf) && DistinctNames(y.conf)
    requires forall op :: op in ops ==> op.Repeat? || op.Load? || op.Plugin?
    ensures var z := Run(y, ops); WellFounded(z.conf, z.plain, SetOf(z.s.kinds))
    decreases ops
  {
    if ops == [] {
      FoundedIsWellFounded(y.s, y.conf, y.plain);
    } else {
      assert ops[0] in ops;
      HistoriesAreFounded(y, [ops[0]]);
      assert [ops[0]][1..] == [];
      assert Run(y, [ops[0]]) == Step(y, ops[0]);
      match ops[0] {
        case Repeat => PassKeepsConfigured(y.s, y.conf);
        case Load(more) =>
          var conf := Merged(y.conf, more, |more|);
          MergeKeepsEntries(y.conf, more, |more|);
          assert StillConfigured(y.s, conf);
          PassKeepsConfigured(y.s, conf);
          PassKeepsConfigured(Pass(y.s, conf, |conf|), conf);
          TwoPasses(y.s, conf);
        case Plugin(_) =>
      }
      AddingStaysWellFounded(Step(y, ops[0]), ops[1..]);
    }
  }

  /** A configuration file can undo it: a bundle that was accepted comes to use itself. */
  lemma {:induction false} ReloadMayBreak() returns (y: System, ops: seq<Op>)
    ensures Fresh(y) && y.conf == []
    ensures var z := Run(y, ops); "b" in z.s.kinds && !WellFounded(z.conf, z.plain, {"b"})
  {
    var b, patch := Bundle("l", "d", Uses(["p"])), Patch(None, None, Some(Uses(["b"])));
    y := System([], State(["p"], {"p"}, []), {"p"});
    var y1 := Step(y, Load([("b", b)]));
    var y2 := Step(y1, Reload([("b", patch)]));
    ops := [Load([("b", b)]), Reload([("b", patch)])];
    assert ops[1..] == [Reload([("b", patch)])] && ops[1..][1..] == [];
    assert Run(y, ops) == Run(y1, ops[1..]) == y2;
    LoadsOne(y, "b", b);
    var loop := Bundle("l", "d", Uses(["b"]));
    assert Patched(y1.conf, [("b", patch)], 0) == [("b", b)];
    assert EntryIndex([("b", b)], "b") == 0;
    assert y2.conf == [("b", loop)];
    assert Pass(y1.s, y2.conf, 0) == y1.s;
    assert Pass(y1.s, y2.conf, 1) == y1.s;
    assert y2.s.kinds == ["p", "b"] && y2.plain == {"p"};
    var start := State(["p"], {}, []);
    assert "b" in loop.pipeline.kinds;
    assert Pass(start, y2.conf, 0) == start;
    assert Pass(start, y2.conf, 1) == start;
    assert Passes(start, y2.conf, 0) == start;
    assert FromPlain(y2.conf, ["p"]) == ["p"];
    WellFoundedIff(y2.conf, ["p"], {"b"});
    assert SetOf(["p"]) == {"p"};
  }

  lemma {:induction false} LoadsOne(y: System, name: string, b: Bundle)
    requires y.conf == [] && Complete(name, b) && Parses(b, y.s.kinds) && name !in y.s.docs && name !in y.s.kinds
    ensures Step(y, Load([(name, b)])) ==
      y.(conf := [(name, b)], s := State(y.s.kinds + [name], y.s.docs + {name}, y.s.accepted + [(name, b)]))
  {
    var conf := [(name, b)];
    assert Merged([], conf, 0) == [];
    assert Merged([], conf, 1) == conf;
    var t := State(y.s.kinds + [name], y.s.docs + {name}, y.s.accepted + [(name, b)]);
    assert Pass(y.s, conf, 0) == y.s;
    assert Pass(y.s, conf, 1) == t;
    assert Pass(t, conf, 0) == t;
    assert Pass(t, conf, 1) == t;
    assert Passes(y.s, conf, 0) == y.s;
    assert Passes(y.s, conf, 1) == t;
    assert Passes(y.s, conf, 2) == t;
  }

  // ---- Nested bundles

  function Position(kinds: seq<string>, kind: string): (p: nat)
    requires kind in kinds
    ensures p < |kinds| && kinds[p] == kind && forall q :: 0 <= q < p ==> kinds[q] != kind
  {
    if kinds[0] == kind then 0 else 1 + Position(kinds[1..], kind)
  }

  lemma {:induction false} PositionBefore(kinds: seq<string>, kind: string, p: nat)
    requires p <= |kinds| && kind in kinds[..p]
    ensures Position(kinds, kind) < p
  {
    var q :| 0 <= q < p && kinds[..p][q] == kind;
    assert kinds[q] == kind;
  }

  ghost function EntryOf(s: State, plain: set<string>, p: nat): (i: nat)
    requires Founded(s, plain) && p < |s.kinds| && s.kinds[p] !in plain
    ensures Describes(s.accepted, s.kinds, i, p)
  {
    assert Described(s.accepted, s.kinds, p);
    var i: nat :| Describes(s.accepted, s.kinds, i, p);
    i
  }

  /** The plain kinds a kind stands for, when every bundle is replaced by what its accepted description uses, again
      and again. */
  ghost function Expansion(s: State, plain: set<string>, p: nat): (r: seq<string>)
    requires Founded(s, plain) && p < |s.kinds|
    ensures forall k :: k in r ==> k in plain
    decreases p, 1, 0
  {
    if s.kinds[p] in plain then [s.kinds[p]]
    else AllExpansions(s, plain, p, s.accepted[EntryOf(s, plain, p)].1.pipeline.kinds)
  }

  ghost function AllExpansions(s: State, plain: set<string>, p: nat, used: seq<string>): (r: seq<string>)
    requires Founded(s, plain) && p < |s.kinds| && forall k :: k in used ==> k in s.kinds[..p]
    ensures forall k :: k in r ==> k in plain
    decreases p, 0, |used|
  {
    if used == [] then []
    else
      assert used[0] in used;
      PositionBefore(s.kinds, used[0], p);
      Expansion(s, plain, Position(s.kinds, used[0])) + AllExpansions(s, plain, p, used[1..])
  }

  /** A bundle is made by a switcher of its own, which shares the documentation and starts with the plain kinds. So a
      pipeline of known kinds can be made exactly when all of them are plain: a bundle that uses a bundle is accepted,
      but the inner switcher will not register the one it needs, whatever its configuration. */
  lemma {:induction false} MadeIffPlain(y: System, used: seq<string>, inner: System, ops: seq<Op>)
    requires Founded(y.s, y.plain) && forall k :: k in used ==> k in y.s.kinds
    requires y.s.docs <= inner.s.docs && forall k :: k in inner.s.kinds <==> k in y.plain
    requires forall op :: op in ops ==> op.Plugin? ==> op.kind in y.plain
    ensures (forall k :: k in used ==> k in Run(inner, ops).s.kinds) <==> forall k :: k in used ==> k in y.plain
  {
    forall k | k in used ensures k in Run(inner, ops).s.kinds <==> k in y.plain {
      InnerKinds(inner, ops, y.plain, k);
    }
  }

  lemma {:induction false} InnerKinds(inner: System, ops: seq<Op>, plain: set<string>, k: string)
    requires k in inner.s.docs && (k in inner.s.kinds <==> k in plain)
    requires forall op :: op in ops ==> op.Plugin? ==> op.kind in plain
    ensures k in Run(inner, ops).s.kinds <==> k in plain
    decreases ops
  {
    if ops != [] {
      var next := Step(inner, ops[0]);
      assert ops[0] in ops;
      match ops[0] {
        case Repeat => PassGrows(inner.s, inner.conf, |inner.conf|);
        case Load(more) => PassesGrow(inner.s, Merged(inner.conf, more, |more|), 2);
        case Reload(patches) =>
          var conf := Patched(inner.conf, patches, |patches|);
          PassGrows(inner.s, conf, |conf|);
        case _ =>
      }
      assert k in next.s.docs && (k in next.s.kinds <==> k in plain);
      InnerKinds(next, ops[1..], plain, k);
    }
  }

  // ---- The switcher and the registry that all switchers of a process share

  class DocumentationRegistry {
    var docs: set<string>

    constructor ()
      ensures docs == {}
    {
      docs := {};
    }

    method RegisterDoc(name: string) returns (inserted: bool)
      modifies this
      ensures docs == old(docs) + {name} && (inserted <==> name !in old(docs))
    {
      inserted := name !in docs;
      docs := docs + {name};
    }
  }

  class Switcher {
    const registry: DocumentationRegistry
    var conf: Config
    var kinds: seq<string>
    ghost var accepted: Config
    ghost var plain: set<string>

    ghost function Now(): State
      reads this, registry
    {
      State(kinds, registry.docs, accepted)
    }

    ghost function Whole(): System
      reads this, registry
    {
      System(conf, Now(), plain)
    }

    constructor (registry: DocumentationRegistry, conf: Config, kinds: seq<string>)
      ensures this.registry == registry && this.conf == conf && this.kinds == kinds
      ensures accepted == [] && plain == SetOf(kinds)
    {
      this.registry, this.conf, this.kinds := registry, conf, kinds;
      accepted, plain := [], SetOf(kinds);
    }

    method RegisterBundleFromConfiguration()
      modifies this`kinds, this`accepted, registry
      ensures Now() == Pass(old(Now()), conf, |conf|)
    {
      var quidKinds := kinds;
      for i := 0 to |conf|
        invariant Now() == Pass(old(Now()), conf, i) && quidKinds == kinds
      {
        var (name, b) := conf[i];
        if '_' in name {
          continue;
        }
        if b.longName == "" || b.description == "" || b.pipeline == Absent {
          continue;
        }
        if !Parses(b, quidKinds) {
          continue;
        }
        var inserted := registry.RegisterDoc(name);
        if !inserted {
          assert registry.docs == Pass(old(Now()), conf, i).docs;
          continue;
        }
        accepted := accepted + [(name, b)];
        if name !in kinds {
          kinds := kinds + [name];
          quidKinds := quidKinds + [name];
        }
      }
    }

    /** `Configuration::from_tree`, for a tree that already has all there was. */
    method FromTree(newConf: Config)
      modifies this`conf, this`kinds, this`accepted, registry
      ensures conf == newConf && Now() == Pass(old(Now()), newConf, |newConf|)
    {
      conf := newConf;
      RegisterBundleFromConfiguration();
    }

    /** patches: what the file says, nothing when it cannot be used. */
    method FromFile(patches: Option<seq<(string, Patch)>>) returns (ok: bool)
      modifies this`conf, this`kinds, this`accepted, registry
      ensures ok == patches.Some?
      ensures Whole() == if ok then Step(old(Whole()), Reload(patches.value)) else old(Whole())
    {
      if patches == None {
        return false;
      }
      var newConf := conf;
      for i := 0 to |patches.value|
        invariant newConf == Patched(conf, patches.value, i) && Whole() == old(Whole())
      {
        newConf := PatchedEntry(newConf, patches.value[i].0, patches.value[i].1);
      }
      FromTree(newConf);
      return true;
    }

    method LoadPlugin(kind: string)
      modifies this`kinds, this`plain, registry
      ensures Whole() == Step(old(Whole()), Plugin(kind))
    {
      var _ := registry.RegisterDoc(kind);
      if kind !in kinds {
        kinds := kinds + [kind];
      }
      plain := plain + {kind};
    }

    /** Taking over the new configuration already makes a pass. */
    method LoadBundleFromConfig(bundles: Option<Config>) returns (ok: bool)
      modifies this`conf, this`kinds, this`accepted, registry
      ensures ok == bundles.Some?
      ensures Whole() == if ok then Step(old(Whole()), Load(bundles.value)) else old(Whole())
    {
      if bundles == None {
        return false;
      }
      var more := bundles.value;
      var newConf, added := conf, false;
      for i := 0 to |more|
        invariant newConf == Merged(conf, more, i) && Whole() == old(Whole())
        invariant added <==> newConf != conf
        invariant |conf| <= |newConf|
        invariant added ==> |conf| < |newConf|
      {
        var found := HasEntry(newConf, more[i].0);
        if found {
          continue;
        }
        added := true;
        newConf := newConf + [more[i]];
      }
      if added {
        ghost var before := Now();
        FromTree(newConf);
        RegisterBundleFromConfiguration();
        TwoPasses(before, newConf);
      }
      return true;
    }

    static method HasEntry(conf: Config, name: string) returns (found: bool)
      ensures found <==> HasName(conf, name)
    {
      for i := 0 to |conf|
        invariant forall j :: 0 <= j < i ==> conf[j].0 != name
      {
        if conf[i].0 == name {
          return true;
        }
      }
      return false;
    }
  }

  lemma {:induction false} TwoPasses(s: State, conf: Config)
    ensures Passes(s, conf, 2) == Pass(Pass(s, conf, |conf|), conf, |conf|)
  {
    assert Passes(s, conf, 0) == s;
    assert Passes(s, conf, 1) == Pass(s, conf, |conf|);
  }
}
