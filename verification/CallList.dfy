/** The list of outgoing SIP calls (plugins/pjsip/pj-call.cpp): a call object is put into the list first and taken
    out again on each of the ways an attempt can fail. */
module CallList {

  /** What a call in the list says; inv is the INVITE session, 0 when there is none. */
  datatype Entry = Entry(peer: string, inv: nat)

  /** What the surroundings answer to one attempt, in the order they are asked. */
  datatype Answers = Answers(
    registered: bool, self: bool, buddyFound: bool, pathsAttached: bool,
    dialogCreated: bool, credentialsSet: bool, sdpCreated: bool,
    sessionCreated: bool, inv: nat, requestCreated: bool, requestSent: bool, treeFound: bool)

  predicate HasPeer(calls: seq<Entry>, uri: string) {
    exists i :: 0 <= i < |calls| && calls[i].peer == uri
  }

  predicate Valid(calls: seq<Entry>, uri: string, a: Answers) {
    a.registered && !HasPeer(calls, uri) && !a.self && a.buddyFound && a.pathsAttached
  }

  predicate Succeeds(calls: seq<Entry>, uri: string, a: Answers) {
    && Valid(calls, uri, a) && a.dialogCreated && a.credentialsSet && a.sdpCreated
    && a.sessionCreated && a.requestCreated && a.requestSent && a.treeFound
  }

  function AfterMake(calls: seq<Entry>, uri: string, a: Answers): seq<Entry> {
    if Succeeds(calls, uri, a) then calls + [Entry(uri, a.inv)] else calls
  }

  function Index(calls: seq<Entry>, inv: nat): (i: nat)
    ensures i <= |calls|
    ensures i < |calls| ==> calls[i].inv == inv
    ensures forall j :: 0 <= j < i ==> calls[j].inv != inv
  {
    if calls == [] || calls[0].inv == inv then 0 else 1 + Index(calls[1..], inv)
  }

  function Without<T>(s: seq<T>, i: nat): seq<T>
    requires i < |s|
  {
    s[..i] + s[i + 1..]
  }

  function AfterRelease(calls: seq<Entry>, inv: nat): seq<Entry> {
    var i := Index(calls, inv);
    if i == |calls| then calls else Without(calls, i)
  }

  // ---- Runs of attempts and releases

  datatype Op = Make(uri: string, a: Answers) | Release(inv: nat)

  /** made: every call that came about, in order. released: the sessions released after they were in the list. */
  datatype History = History(calls: seq<Entry>, made: seq<Entry>, released: set<nat>)

  const START := History([], [], {})

  /** A session that the library creates is not one of the sessions there have been. */
  predicate Enabled(h: History, op: Op) {
    op.Make? ==> forall i :: 0 <= i < |h.made| ==> h.made[i].inv != op.a.inv
  }

  function Step(h: History, op: Op): History {
    match op
    case Make(uri, a) =>
      h.(calls := AfterMake(h.calls, uri, a),
         made := if Succeeds(h.calls, uri, a) then h.made + [Entry(uri, a.inv)] else h.made)
    case Release(inv) =>
      h.(calls := AfterRelease(h.calls, inv),
         released := if Index(h.calls, inv) < |h.calls| then h.released + {inv} else h.released)
  }

  predicate ValidRun(h: History, ops: seq<Op>)
    decreases ops
  {
    ops == [] || (Enabled(h, ops[0]) && ValidRun(Step(h, ops[0]), ops[1..]))
  }

  function Run(h: History, ops: seq<Op>): History
    decreases ops
  {
    if ops == [] then h else Run(Step(h, ops[0]), ops[1..])
  }

  /** The calls made and not released, in the order they were made. */
  function Open(made: seq<Entry>, released: set<nat>): (r: seq<Entry>)
    ensures forall e :: e in r <==> e in made && e.inv !in released
  {
    if made == [] then []
    else
      var n := |made| - 1;
      Open(made[..n], released) + if made[n].inv in released then [] else [made[n]]
  }

  ghost predicate DistinctInvs(calls: seq<Entry>) {
    forall i, j :: 0 <= i < j < |calls| ==> calls[i].inv != calls[j].inv
  }

  ghost predicate DistinctPeers(calls: seq<Entry>) {
    forall i, j :: 0 <= i < j < |calls| ==> calls[i].peer != calls[j].peer
  }

  ghost predicate Fine(h: History) {
    && h.calls == Open(h.made, h.released) && DistinctInvs(h.made) && DistinctPeers(h.calls)
    && forall inv :: inv in h.released ==> exists i :: 0 <= i < |h.made| && h.made[i].inv == inv
  }

  lemma {:induction false} OpenOneMore(made: seq<Entry>, released: set<nat>, e: Entry)
    requires e.inv !in released
    ensures Open(made + [e], released) == Open(made, released) + [e]
  {
    assert (made + [e])[..|made|] == made;
  }

  lemma {:induction false} OpenIsSame(made: seq<Entry>, released: set<nat>, inv: nat)
    requires forall i :: 0 <= i < |made| ==> made[i].inv != inv
    ensures Open(made, released + {inv}) == Open(made, released)
    decreases |made|
  {
    if made != [] {
      OpenIsSame(made[..|made| - 1], released, inv);
    }
  }

  lemma {:induction false} IndexInSum(a: seq<Entry>, b: seq<Entry>, inv: nat)
    ensures Index(a + b, inv) == if Index(a, inv) < |a| then Index(a, inv) else |a| + Index(b, inv)
  {
    if a == [] {
      assert a + b == b;
    } else {
      assert (a + b)[1..] == a[1..] + b;
      IndexInSum(a[1..], b, inv);
    }
  }

  lemma {:induction false} NotThere(calls: seq<Entry>, inv: nat)
    requires forall i :: 0 <= i < |calls| ==> calls[i].inv != inv
    ensures AfterRelease(calls, inv) == calls
  {
  }

  lemma {:induction false} OpenLast(made: seq<Entry>, released: set<nat>)
    requires made != []
    ensures var n := |made| - 1;
      Open(made, released) == Open(made[..n], released) + if made[n].inv in released then [] else [made[n]]
  {
  }

  lemma {:induction false} NoOpenIndex(made: seq<Entry>, released: set<nat>, inv: nat)
    requires forall i :: 0 <= i < |made| ==> made[i].inv != inv
    ensures Index(Open(made, released), inv) == |Open(made, released)|
  {
    var open := Open(made, released);
    forall j | 0 <= j < |open| ensures open[j].inv != inv {
      assert open[j] in open;
    }
  }

  lemma {:induction false} ReleaseInSum(before: seq<Entry>, last: seq<Entry>, inv: nat)
    ensures Index(before, inv) < |before| ==> AfterRelease(before + last, inv) == AfterRelease(before, inv) + last
    ensures Index(before, inv) == |before| && last != [] && last[0].inv == inv ==>
      AfterRelease(before + last, inv) == before + last[1..]
  {
    IndexInSum(before, last, inv);
  }

  /** Releasing a session takes out the one call with it and leaves the others in their order. */
  lemma {:induction false} ReleaseTakesOne(made: seq<Entry>, released: set<nat>, inv: nat)
    requires DistinctInvs(made)
    ensures Index(Open(made, released), inv) < |Open(made, released)| ==>
      AfterRelease(Open(made, released), inv) == Open(made, released + {inv})
    decreases |made|
  {
    hide Open, AfterRelease;
    if made != [] {
      var n := |made| - 1;
      var before, last := Open(made[..n], released), if made[n].inv in released then [] else [made[n]];
      OpenLast(made, released);
      OpenLast(made, released + {inv});
      IndexInSum(before, last, inv);
      ReleaseInSum(before, last, inv);
      if made[n].inv == inv {
        OpenIsSame(made[..n], released, inv);
        NoOpenIndex(made[..n], released, inv);
      } else {
        ReleaseTakesOne(made[..n], released, inv);
      }
    } else {
      NoneOpen(released);
    }
  }

  lemma {:induction false} NoneOpen(released: set<nat>)
    ensures Open([], released) == []
  {
  }

  lemma {:induction false} ReleaseKeepsFine(h: History, inv: nat)
    requires Fine(h)
    ensures Fine(Step(h, Release(inv)))
  {
    hide Open;
    ReleaseTakesOne(h.made, h.released, inv);
    var i := Index(h.calls, inv);
    if i < |h.calls| {
      assert h.calls[i] in h.calls && h.calls[i] in h.made;
    }
  }

  lemma {:induction false} MakeKeepsFine(h: History, uri: string, a: Answers)
    requires Fine(h) && Enabled(h, Make(uri, a))
    ensures Fine(Step(h, Make(uri, a)))
  {
    var next := Step(h, Make(uri, a));
    if Succeeds(h.calls, uri, a) {
      OpenOneMore(h.made, h.released, Entry(uri, a.inv));
      forall inv | inv in h.released ensures exists i :: 0 <= i < |next.made| && next.made[i].inv == inv {
        var i :| 0 <= i < |h.made| && h.made[i].inv == inv;
        assert next.made[i].inv == inv;
      }
    }
  }

  /** In every run the list holds exactly the calls made and not released, in order, and calls no one twice. */
  lemma {:induction false} ListIsOpenCalls(h: History, ops: seq<Op>)
    requires Fine(h) && ValidRun(h, ops)
    ensures Fine(Run(h, ops))
    decreases ops
  {
    if ops != [] {
      match ops[0] {
        case Make(uri, a) => MakeKeepsFine(h, uri, a);
        case Release(inv) => ReleaseKeepsFine(h, inv);
      }
      ListIsOpenCalls(Step(h, ops[0]), ops[1..]);
    }
  }

  lemma {:induction false} StartIsFine()
    ensures Fine(START)
  {
  }

  /** No step of an attempt fails. */
  predicate AllWell(a: Answers) {
    && a.registered && !a.self && a.buddyFound && a.pathsAttached && a.dialogCreated && a.credentialsSet
    && a.sdpCreated && a.sessionCreated && a.requestCreated && a.requestSent && a.treeFound
  }

  predicate AllReleased(h: History, uri: string) {
    forall i :: 0 <= i < |h.made| && h.made[i].peer == uri ==> h.made[i].inv in h.released
  }

  /** In every run, an attempt adds a call exactly when no step fails and every earlier call to the contact has been
      released. */
  lemma {:induction false} CallableIff(ops: seq<Op>, uri: string, a: Answers)
    requires ValidRun(START, ops)
    ensures var h := Run(START, ops);
      var t := Step(h, Make(uri, a));
      && (t.made == h.made + [Entry(uri, a.inv)] || t.made == h.made) && t.released == h.released
      && (t.made != h.made <==> AllWell(a) && AllReleased(h, uri))
  {
    StartIsFine();
    ListIsOpenCalls(START, ops);
    var h := Run(START, ops);
    if HasPeer(h.calls, uri) {
      var i :| 0 <= i < |h.calls| && h.calls[i].peer == uri;
      assert h.calls[i] in h.calls && h.calls[i] in h.made;
    }
    forall i | 0 <= i < |h.made| && h.made[i].peer == uri && h.made[i].inv !in h.released
      ensures HasPeer(h.calls, uri)
    {
      assert h.made[i] in h.made && h.made[i] in h.calls;
    }
  }

  // ---- The objects

  class Call {
    var peerUri: string
    var inv: nat

    constructor ()
      ensures peerUri == "" && inv == 0
    {
      peerUri, inv := "", 0;
    }
  }

  class PJCall {
    var outgoing: seq<Call>

    function Calls(): (r: seq<Entry>)
      reads this, outgoing
      ensures |r| == |outgoing|
    {
      var calls := outgoing;
      seq(|calls|, i requires 0 <= i < |calls| reads calls => Entry(calls[i].peerUri, calls[i].inv))
    }

    constructor ()
      ensures outgoing == []
    {
      outgoing := [];
    }

    method IsCallValid(uri: string, a: Answers) returns (valid: bool)
      ensures valid <==> Valid(Calls(), uri, a)
    {
      if !a.registered {
        return false;
      }
      for i := 0 to |outgoing|
        invariant forall j :: 0 <= j < i ==> Calls()[j].peer != uri
      {
        if outgoing[i].peerUri == uri {
          assert Calls()[i].peer == uri;
          return false;
        }
      }
      return !a.self && a.buddyFound && a.pathsAttached;
    }

    method PopBack()
      requires outgoing != []
      modifies `outgoing
      ensures outgoing == old(outgoing[..|outgoing| - 1])
    {
      outgoing := outgoing[..|outgoing| - 1];
    }

    method CreateSipDialog(a: Answers) returns (created: bool)
      requires outgoing != []
      modifies `outgoing
      ensures created <==> a.dialogCreated && a.credentialsSet
      ensures outgoing == if created then old(outgoing) else old(outgoing[..|outgoing| - 1])
    {
      if !a.dialogCreated {
        PopBack();
        return false;
      }
      if !a.credentialsSet {
        PopBack();
        return false;
      }
      return true;
    }

    method SendInviteRequest(call: Call, a: Answers) returns (sent: bool)
      requires outgoing != []
      modifies `outgoing, call`inv
      ensures sent <==> a.sessionCreated && a.requestCreated && a.requestSent
      ensures outgoing == if sent then old(outgoing) else old(outgoing[..|outgoing| - 1])
      ensures sent ==> call.inv == a.inv
    {
      if !a.sessionCreated {
        PopBack();
        return false;
      }
      call.inv := a.inv;
      if !a.requestCreated {
        PopBack();
        return false;
      }
      if !a.requestSent {
        PopBack();
        return false;
      }
      return true;
    }

    /** A failed attempt leaves the very list there was, whichever way it fails. */
    method MakeCall(uri: string, a: Answers) returns (made: bool)
      modifies `outgoing
      ensures made <==> Succeeds(old(Calls()), uri, a)
      ensures !made ==> outgoing == old(outgoing)
      ensures made ==> |outgoing| == |old(outgoing)| + 1 && fresh(outgoing[|old(outgoing)|])
      ensures made ==> outgoing[..|old(outgoing)|] == old(outgoing)
      ensures Calls() == AfterMake(old(Calls()), uri, a)
    {
      var valid := IsCallValid(uri, a);
      if !valid {
        return false;
      }
      var call := new Call();
      outgoing := outgoing + [call];
      var created := CreateSipDialog(a);
      if !created {
        return false;
      }
      call.peerUri := uri;
      if !a.sdpCreated {
        PopBack();
        return false;
      }
      var sent := SendInviteRequest(call, a);
      if !sent {
        return false;
      }
      if !a.treeFound {
        PopBack();
        return false;
      }
      return true;
    }

    /** Only called while no attempt is under way: both hold `call_m_`. */
    method ReleaseOutgoingCall(inv: nat) returns (found: bool)
      modifies `outgoing
      ensures found <==> Index(old(Calls()), inv) < |old(Calls())|
      ensures Calls() == AfterRelease(old(Calls()), inv)
    {
      var i := 0;
      while i < |outgoing| && outgoing[i].inv != inv
        invariant i <= |outgoing| && forall j :: 0 <= j < i ==> Calls()[j].inv != inv
      {
        i := i + 1;
      }
      ghost var calls := Calls();
      if i == |outgoing| {
        NotThere(calls, inv);
        return false;
      }
      assert calls[i].inv == inv;
      outgoing := Without(outgoing, i);
      assert Calls() == Without(calls, i);
      return true;
    }
  }
}
