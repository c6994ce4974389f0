/** Answering an SDP offer and wiring the answered media to ICE components (plugins/pjsip/pj-call.cpp). */
module SdpAnswer {
  import opened IceTransport

  datatype Attr = Attr(name: string, value: string)

  datatype Media = Media(line: string, port: nat, attrs: seq<Attr>)

  // ---- Which media are answered, and how

  predicate Sends(a: Attr) { a.name == "sendrecv" || a.name == "sendonly" }

  /** How many attributes say that the other side sends. */
  function Senders(attrs: seq<Attr>): nat {
    if attrs == [] then 0 else Senders(attrs[..|attrs| - 1]) + if Sends(attrs[|attrs| - 1]) then 1 else 0
  }

  /** The last of them. */
  function LastSender(attrs: seq<Attr>): (j: nat)
    requires Senders(attrs) > 0
    ensures j < |attrs| && Sends(attrs[j]) && forall k :: j < k < |attrs| ==> !Sends(attrs[k])
  {
    if Sends(attrs[|attrs| - 1]) then |attrs| - 1 else LastSender(attrs[..|attrs| - 1])
  }

  function WithoutCandidates(attrs: seq<Attr>): (r: seq<Attr>)
    ensures forall a :: a in r <==> a in attrs && a.name != "candidate"
  {
    if attrs == [] then []
    else
      var n := |attrs| - 1;
      WithoutCandidates(attrs[..n]) + if attrs[n].name == "candidate" then [] else [attrs[n]]
  }

  /** Each match starts again from a clone of the offer, so only the last one is renamed. */
  function Turned(attrs: seq<Attr>): seq<Attr>
    requires Senders(attrs) > 0
  {
    var j := LastSender(attrs);
    attrs[j := attrs[j].(name := "recvonly")]
  }

  function Answerable(m: Media): Media
    requires Senders(m.attrs) > 0
  {
    m.(attrs := WithoutCandidates(Turned(m.attrs)))
  }

  function Selected(offer: seq<Media>): seq<Media> {
    if offer == [] then []
    else
      var n := |offer| - 1;
      Selected(offer[..n]) + if Senders(offer[n].attrs) > 0 then [Answerable(offer[n])] else []
  }

  lemma {:induction false} SendersOfSum(a: seq<Attr>, b: seq<Attr>)
    ensures Senders(a + b) == Senders(a) + Senders(b)
    decreases |b|
  {
    if b == [] {
      assert a + b == a;
    } else {
      var n := |b| - 1;
      assert (a + b)[..|a + b| - 1] == a + b[..n];
      SendersOfSum(a, b[..n]);
    }
  }

  lemma {:induction false} SendersOfOne(a: Attr)
    ensures Senders([a]) == if Sends(a) then 1 else 0
  {
    assert [a][..0] == [];
  }

  lemma {:induction false} TurningTakesOne(attrs: seq<Attr>)
    requires Senders(attrs) > 0
    ensures Senders(Turned(attrs)) == Senders(attrs) - 1
  {
    hide Senders, LastSender;
    var j := LastSender(attrs);
    ReplaceOne(attrs, j, attrs[j].(name := "recvonly"));
  }

  lemma {:induction false} ReplaceOne(attrs: seq<Attr>, j: nat, a: Attr)
    requires j < |attrs| && Sends(attrs[j]) && !Sends(a)
    ensures Senders(attrs[j := a]) == Senders(attrs) - 1
  {
    hide Senders, Sends;
    assert attrs == attrs[..j] + ([attrs[j]] + attrs[j + 1..]);
    assert attrs[j := a] == attrs[..j] + ([a] + attrs[j + 1..]);
    SendersOfSum([attrs[j]], attrs[j + 1..]);
    SendersOfSum([a], attrs[j + 1..]);
    SendersOfSum(attrs[..j], [attrs[j]] + attrs[j + 1..]);
    SendersOfSum(attrs[..j], [a] + attrs[j + 1..]);
    SendersOfOne(attrs[j]);
    SendersOfOne(a);
  }

  lemma {:induction false} WithoutLast(attrs: seq<Attr>)
    requires attrs != []
    ensures var n := |attrs| - 1;
      WithoutCandidates(attrs) ==
      WithoutCandidates(attrs[..n]) + if attrs[n].name == "candidate" then [] else [attrs[n]]
  {
  }

  lemma {:induction false} CandidatesDoNotCount(attrs: seq<Attr>)
    ensures Senders(WithoutCandidates(attrs)) == Senders(attrs)
    decreases |attrs|
  {
    hide Senders, WithoutCandidates;
    if attrs == [] {
      NoAttrs();
    } else {
      var n := |attrs| - 1;
      CandidatesDoNotCount(attrs[..n]);
      WithoutLast(attrs);
      assert attrs == attrs[..n] + [attrs[n]];
      SendersOfSum(attrs[..n], [attrs[n]]);
      SendersOfOne(attrs[n]);
      if attrs[n].name != "candidate" {
        SendersOfSum(WithoutCandidates(attrs[..n]), [attrs[n]]);
      } else {
        assert WithoutCandidates(attrs) == WithoutCandidates(attrs[..n]);
      }
    }
  }

  lemma {:induction false} NoneSends(attrs: seq<Attr>)
    ensures Senders(attrs) == 0 <==> forall a :: a in attrs ==> !Sends(a)
    decreases |attrs|
  {
    if attrs != [] {
      var n := |attrs| - 1;
      NoneSends(attrs[..n]);
      assert attrs == attrs[..n] + [attrs[n]];
    }
  }

  /** An answered media no longer says that the other side sends exactly when the offer said so once; the attribute
      that is turned says recvonly. With more than one, the others are left as they were. */
  lemma {:induction false} AnswerIsRecvOnlyIff(m: Media)
    requires Senders(m.attrs) > 0
    ensures (forall a :: a in Answerable(m).attrs ==> !Sends(a)) <==> Senders(m.attrs) == 1
    ensures exists a :: a in Answerable(m).attrs && a.name == "recvonly"
    ensures forall a :: a in Answerable(m).attrs ==> a.name != "candidate"
  {
    TurningTakesOne(m.attrs);
    CandidatesDoNotCount(Turned(m.attrs));
    NoneSends(Answerable(m).attrs);
    var j := LastSender(m.attrs);
    assert Turned(m.attrs)[j] in Turned(m.attrs);
    assert Turned(m.attrs)[j] in Answerable(m).attrs;
  }

  /** The attributes that are neither directions nor candidates. */
  function Rest(attrs: seq<Attr>): seq<Attr> {
    if attrs == [] then []
    else
      var n := |attrs| - 1;
      Rest(attrs[..n]) +
      if Sends(attrs[n]) || attrs[n].name == "recvonly" || attrs[n].name == "candidate" then [] else [attrs[n]]
  }

  lemma {:induction false} RestOfSum(a: seq<Attr>, b: seq<Attr>)
    ensures Rest(a + b) == Rest(a) + Rest(b)
    decreases |b|
  {
    if b == [] {
      assert a + b == a;
    } else {
      var n := |b| - 1;
      assert (a + b)[..|a + b| - 1] == a + b[..n];
      RestOfSum(a, b[..n]);
    }
  }

  lemma {:induction false} RestOfOne(a: Attr)
    ensures Rest([a]) == if Sends(a) || a.name == "recvonly" || a.name == "candidate" then [] else [a]
  {
    assert [a][..0] == [];
  }

  lemma {:induction false} NoAttrs()
    ensures Senders([]) == 0 && WithoutCandidates([]) == [] && Rest([]) == []
  {
  }

  lemma {:induction false} RestWithoutCandidates(attrs: seq<Attr>)
    ensures Rest(WithoutCandidates(attrs)) == Rest(attrs)
    decreases |attrs|
  {
    hide Rest, WithoutCandidates, Sends;
    if attrs == [] {
      NoAttrs();
    } else {
      var n := |attrs| - 1;
      RestWithoutCandidates(attrs[..n]);
      WithoutLast(attrs);
      assert attrs == attrs[..n] + [attrs[n]];
      RestOfSum(attrs[..n], [attrs[n]]);
      RestOfOne(attrs[n]);
      if attrs[n].name != "candidate" {
        RestOfSum(WithoutCandidates(attrs[..n]), [attrs[n]]);
      } else {
        assert WithoutCandidates(attrs) == WithoutCandidates(attrs[..n]);
      }
    }
  }

  /** Everything else in an answered media is as offered, in the offered order. */
  lemma {:induction false} OthersAreKept(m: Media)
    requires Senders(m.attrs) > 0
    ensures Rest(Answerable(m).attrs) == Rest(m.attrs) && Answerable(m).line == m.line
  {
    hide Rest, LastSender, WithoutCandidates, Senders;
    var attrs, j := m.attrs, LastSender(m.attrs);
    var turned := attrs[j].(name := "recvonly");
    RestWithoutCandidates(Turned(attrs));
    assert attrs == attrs[..j] + ([attrs[j]] + attrs[j + 1..]);
    assert Turned(attrs) == attrs[..j] + ([turned] + attrs[j + 1..]);
    RestOfSum([attrs[j]], attrs[j + 1..]);
    RestOfSum([turned], attrs[j + 1..]);
    RestOfSum(attrs[..j], [attrs[j]] + attrs[j + 1..]);
    RestOfSum(attrs[..j], [turned] + attrs[j + 1..]);
    RestOfOne(attrs[j]);
    RestOfOne(turned);
  }

  /** The positions of the media that are answered. */
  function Picked(offer: seq<Media>): seq<nat> {
    if offer == [] then []
    else
      var n := |offer| - 1;
      Picked(offer[..n]) + if Senders(offer[n].attrs) > 0 then [n] else []
  }

  /** The answer holds, in the order of the offer, exactly the media in which the other side sends. */
  lemma {:induction false} AnsweredInOrder(offer: seq<Media>)
    ensures var p := Picked(offer);
      && |Selected(offer)| == |p|
      && (forall k :: 0 <= k < |p| ==> p[k] < |offer| && Senders(offer[p[k]].attrs) > 0)
      && (forall k :: 0 <= k < |p| ==> Selected(offer)[k] == Answerable(offer[p[k]]))
      && (forall j, k :: 0 <= j < k < |p| ==> p[j] < p[k])
      && (forall i :: 0 <= i < |offer| && Senders(offer[i].attrs) > 0 ==> i in p)
    decreases |offer|
  {
    hide Senders, Answerable, Selected, Picked;
    if offer == [] {
      NothingOffered();
    } else {
      var n := |offer| - 1;
      AnsweredInOrder(offer[..n]);
      LastOffered(offer);
      var p, q := Picked(offer[..n]), Picked(offer);
      assert forall i :: 0 <= i < n ==> offer[..n][i] == offer[i];
      forall i | 0 <= i < |offer| && Senders(offer[i].attrs) > 0 ensures i in q {
        if i < n {
          assert i in p;
        }
      }
    }
  }

  lemma {:induction false} SendersIff(attrs: seq<Attr>)
    ensures Senders(attrs) > 0 <==> exists a :: a in attrs && (a.name == "sendrecv" || a.name == "sendonly")
    decreases |attrs|
  {
    NoneSends(attrs);
  }

  /** A media is answered exactly when one of its attributes is sendrecv or sendonly. */
  lemma {:induction false} AnsweredIff(offer: seq<Media>, i: nat)
    requires i < |offer|
    ensures i in Picked(offer) <==>
      exists a :: a in offer[i].attrs && (a.name == "sendrecv" || a.name == "sendonly")
  {
    hide Senders, Picked, Selected;
    AnsweredInOrder(offer);
    SendersIff(offer[i].attrs);
    if i in Picked(offer) {
      var k :| 0 <= k < |Picked(offer)| && Picked(offer)[k] == i;
    }
  }

  lemma {:induction false} LastOffered(offer: seq<Media>)
    requires offer != []
    ensures var n := |offer| - 1;
      var answered := Senders(offer[n].attrs) > 0;
      && Selected(offer) == Selected(offer[..n]) + (if answered then [Answerable(offer[n])] else [])
      && Picked(offer) == Picked(offer[..n]) + (if answered then [n] else [])
  {
    hide Senders, Answerable;
  }

  /** RFC 3264 (section 6) wants a line in the answer for each line of the offer; that is so exactly when the other
      side sends in all of them. */
  lemma {:induction false} AnswersAllIff(offer: seq<Media>)
    ensures |Selected(offer)| <= |offer|
    ensures |Selected(offer)| == |offer| <==> forall i :: 0 <= i < |offer| ==> Senders(offer[i].attrs) > 0
    decreases |offer|
  {
    hide Senders, Answerable, Selected, Picked;
    if offer == [] {
      NothingOffered();
    } else {
      LastOffered(offer);
      AnswersAllIff(offer[..|offer| - 1]);
      assert forall i :: 0 <= i < |offer| - 1 ==> offer[..|offer| - 1][i] == offer[i];
    }
  }

  // ---- What the answer advertises

  function CandidateAttrs(candidates: seq<string>): seq<Attr> {
    seq(|candidates|, k requires 0 <= k < |candidates| => Attr("candidate", candidates[k]))
  }

  function Advertising(m: Media, port: nat, candidates: seq<string>): Media {
    m.(port := port, attrs := m.attrs + CandidateAttrs(candidates))
  }

  function Advertised(media: seq<Media>, comps: seq<Component>): (r: seq<Media>)
    requires |media| == |comps|
    ensures |r| == |media|
  {
    seq(|media|, i requires 0 <= i < |media| => Advertising(media[i], comps[i].port, Listed(comps[i])))
  }

  /** An answered media carries the port and the candidates of its component, no candidate of the other side, and no
      direction but recvonly when the offer had one. */
  lemma {:induction false} AdvertisesItsComponent(offer: seq<Media>, comps: seq<Component>, k: nat)
    requires |comps| == |Selected(offer)| && k < |comps|
    ensures var m := Advertised(Selected(offer), comps)[k];
      && m.port == comps[k].port
      && (forall v :: Attr("candidate", v) in m.attrs <==> v in Listed(comps[k]))
      && (Senders(offer[PickedAt(offer, k)].attrs) == 1 ==> forall a :: a in m.attrs ==> !Sends(a))
  {
    AnsweredInOrder(offer);
    var m, from := Advertised(Selected(offer), comps)[k], offer[PickedAt(offer, k)];
    AnswerIsRecvOnlyIff(from);
    var listed, own := Listed(comps[k]), CandidateAttrs(Listed(comps[k]));
    forall v ensures Attr("candidate", v) in m.attrs <==> v in listed {
      if v in listed {
        var j :| 0 <= j < |listed| && listed[j] == v;
        assert own[j] == Attr("candidate", v);
        assert own[j] in m.attrs;
      }
    }
  }

  // ---- The final media against the offered one

  /** The values of the candidate attributes, in order. */
  function CandidatesIn(attrs: seq<Attr>): seq<string> {
    if attrs == [] then []
    else
      var n := |attrs| - 1;
      CandidatesIn(attrs[..n]) + if attrs[n].name == "candidate" then [attrs[n].value] else []
  }

  /** The positions of the attributes that are no candidates. */
  function Others(attrs: seq<Attr>): seq<nat> {
    if attrs == [] then []
    else
      var n := |attrs| - 1;
      Others(attrs[..n]) + if attrs[n].name == "candidate" then [] else [n]
  }

  lemma {:induction false} OthersAre(attrs: seq<Attr>)
    ensures var p, r := Others(attrs), WithoutCandidates(attrs);
      && |r| == |p|
      && (forall i :: 0 <= i < |p| ==> p[i] < |attrs| && attrs[p[i]].name != "candidate" && r[i] == attrs[p[i]])
      && (forall i, j :: 0 <= i < j < |p| ==> p[i] < p[j])
    decreases |attrs|
  {
    hide Others, WithoutCandidates;
    if attrs == [] {
      NoAttrs();
      NoOthers();
    } else {
      OthersAre(attrs[..|attrs| - 1]);
      WithoutLast(attrs);
      OthersLast(attrs);
    }
  }

  lemma {:induction false} AllOthers(attrs: seq<Attr>, k: nat)
    requires k < |attrs| && attrs[k].name != "candidate"
    ensures k in Others(attrs)
    decreases |attrs|
  {
    hide Others;
    OthersLast(attrs);
    if k < |attrs| - 1 {
      AllOthers(attrs[..|attrs| - 1], k);
    }
  }

  lemma {:induction false} NoOthers()
    ensures Others([]) == []
  {
  }

  lemma {:induction false} OthersLast(attrs: seq<Attr>)
    requires attrs != []
    ensures var n := |attrs| - 1;
      Others(attrs) == Others(attrs[..n]) + if attrs[n].name == "candidate" then [] else [n]
  {
  }

  lemma {:induction false} SameOthers(a: seq<Attr>, b: seq<Attr>)
    requires |a| == |b| && forall i :: 0 <= i < |a| ==> (a[i].name == "candidate" <==> b[i].name == "candidate")
    ensures Others(a) == Others(b)
    decreases |a|
  {
    if a != [] {
      SameOthers(a[..|a| - 1], b[..|a| - 1]);
    }
  }

  lemma {:induction false} CandidatesOfSum(a: seq<Attr>, b: seq<Attr>)
    ensures CandidatesIn(a + b) == CandidatesIn(a) + CandidatesIn(b)
    decreases |b|
  {
    if b == [] {
      assert a + b == a;
    } else {
      var n := |b| - 1;
      assert (a + b)[..|a + b| - 1] == a + b[..n];
      CandidatesOfSum(a, b[..n]);
    }
  }

  lemma {:induction false} OwnCandidates(candidates: seq<string>)
    ensures CandidatesIn(CandidateAttrs(candidates)) == candidates && Rest(CandidateAttrs(candidates)) == []
    decreases |candidates|
  {
    if candidates != [] {
      var n := |candidates| - 1;
      assert CandidateAttrs(candidates)[..n] == CandidateAttrs(candidates[..n]);
      OwnCandidates(candidates[..n]);
    }
  }

  lemma {:induction false} NoCandidates(attrs: seq<Attr>)
    requires forall a :: a in attrs ==> a.name != "candidate"
    ensures CandidatesIn(attrs) == []
    decreases |attrs|
  {
    if attrs != [] {
      NoCandidates(attrs[..|attrs| - 1]);
    }
  }

  /** Media k of the answer keeps the line and all other attributes of the offered media, in order; it has a recvonly,
      and its candidates are those of its component, in order. */
  lemma {:induction false} AnswerKeepsTheMedia(offer: seq<Media>, comps: seq<Component>, k: nat)
    requires |comps| == |Selected(offer)| && k < |comps|
    ensures var m, from := Advertised(Selected(offer), comps)[k], offer[PickedAt(offer, k)];
      && m.line == from.line && m.port == comps[k].port
      && Rest(m.attrs) == Rest(from.attrs)
      && (exists a :: a in m.attrs && a.name == "recvonly")
      && CandidatesIn(m.attrs) == Listed(comps[k])
  {
    hide Senders, Rest, CandidatesIn, Selected, WithoutCandidates, CandidateAttrs, Answerable, Advertised, PickedAt;
    FinalMedia(offer, comps, k);
    var m, from := Advertised(Selected(offer), comps)[k], offer[PickedAt(offer, k)];
    var kept, own := Answerable(from).attrs, CandidateAttrs(Listed(comps[k]));
    AnswerIsRecvOnlyIff(from);
    OthersAreKept(from);
    OwnCandidates(Listed(comps[k]));
    NoCandidates(kept);
    CandidatesOfSum(kept, own);
    RestOfSum(kept, own);
    var a :| a in kept && a.name == "recvonly";
    assert a in m.attrs;
  }

  /** How an offered attribute is answered: the last one that says that the other side sends is turned. */
  predicate AnsweredBy(attrs: seq<Attr>, i: nat, a: Attr)
    requires i < |attrs|
  {
    && a.value == attrs[i].value
    && a.name == if Sends(attrs[i]) && NoSenderAfter(attrs, i) then "recvonly" else attrs[i].name
  }

  lemma {:induction false} AnswerableAttributes(m: Media)
    requires Senders(m.attrs) > 0
    ensures var r, p := Answerable(m).attrs, Others(m.attrs);
      |r| == |p| && forall i :: 0 <= i < |p| ==> p[i] < |m.attrs| && AnsweredBy(m.attrs, p[i], r[i])
    ensures forall j :: 0 <= j < |m.attrs| && m.attrs[j].name != "candidate" ==> j in Others(m.attrs)
    ensures forall i, j :: 0 <= i < j < |Others(m.attrs)| ==> Others(m.attrs)[i] < Others(m.attrs)[j]
  {
    hide Senders, WithoutCandidates, Others;
    OthersAre(m.attrs);
    OthersAre(Turned(m.attrs));
    SameOthers(m.attrs, Turned(m.attrs));
    forall j | 0 <= j < |m.attrs| && m.attrs[j].name != "candidate" ensures j in Others(m.attrs) {
      AllOthers(m.attrs, j);
    }
  }

  /** The attributes of an answer, one by one: the offered ones but the candidates, in their order, of which the last
      that says that the other side sends says recvonly; then the candidates of its own component. */
  ghost predicate AnsweredAs(offered: seq<Attr>, own: seq<string>, attrs: seq<Attr>) {
    var p := Others(offered);
    && |attrs| == |p| + |own|
    && (forall i :: 0 <= i < |p| ==> p[i] < |offered| && AnsweredBy(offered, p[i], attrs[i]))
    && (forall i :: 0 <= i < |own| ==> attrs[|p| + i] == Attr("candidate", own[i]))
  }

  /** So it is for each media of an answer. */
  lemma {:induction false} AnswerAttributes(offer: seq<Media>, comps: seq<Component>, k: nat)
    requires |comps| == |Selected(offer)| && k < |comps|
    ensures var m, from := Advertised(Selected(offer), comps)[k], offer[PickedAt(offer, k)];
      AnsweredAs(from.attrs, Listed(comps[k]), m.attrs)
  {
    hide Senders, Selected, Answerable, AnsweredAs, Advertised, PickedAt, CandidateAttrs;
    FinalMedia(offer, comps, k);
    var from := offer[PickedAt(offer, k)];
    AnswerableAttributes(from);
    KeptThenOwn(from.attrs, Answerable(from).attrs, Listed(comps[k]));
  }

  lemma {:induction false} KeptThenOwn(attrs: seq<Attr>, kept: seq<Attr>, own: seq<string>)
    requires var p := Others(attrs);
      |kept| == |p| && forall i :: 0 <= i < |p| ==> p[i] < |attrs| && AnsweredBy(attrs, p[i], kept[i])
    ensures AnsweredAs(attrs, own, kept + CandidateAttrs(own))
  {
    hide AnsweredBy, Others;
  }

  lemma {:induction false} FinalMedia(offer: seq<Media>, comps: seq<Component>, k: nat)
    requires |comps| == |Selected(offer)| && k < |comps|
    ensures var m, from := Advertised(Selected(offer), comps)[k], offer[PickedAt(offer, k)];
      && Senders(from.attrs) > 0 && m.line == from.line && m.port == comps[k].port
      && m.attrs == Answerable(from).attrs + CandidateAttrs(Listed(comps[k]))
  {
    hide Senders, Selected, Turned, WithoutCandidates, CandidateAttrs;
    AnsweredInOrder(offer);
  }

  predicate NoSenderAfter(attrs: seq<Attr>, i: nat) {
    forall k :: i < k < |attrs| ==> !Sends(attrs[k])
  }

  function PickedAt(offer: seq<Media>, k: nat): (i: nat)
    requires k < |Selected(offer)|
    ensures i < |offer|
  {
    AnsweredInOrder(offer);
    Picked(offer)[k]
  }

  // ---- The objects

  class SdpMedia {
    var line: string
    var port: nat
    var attrs: seq<Attr>

    function Value(): Media
      reads this
    {
      Media(line, port, attrs)
    }

    constructor (m: Media)
      ensures Value() == m
    {
      line, port, attrs := m.line, m.port, m.attrs;
    }

    constructor Clone(m: SdpMedia)
      ensures Value() == m.Value()
    {
      line, port, attrs := m.line, m.port, m.attrs;
    }

    method RemoveCandidates()
      modifies this
      ensures Value() == old(Value()).(attrs := WithoutCandidates(old(attrs)))
    {
      var kept := [];
      for j := 0 to |attrs|
        invariant Value() == old(Value()) && kept == WithoutCandidates(attrs[..j])
      {
        assert attrs[..j + 1][..j] == attrs[..j];
        if attrs[j].name != "candidate" {
          kept := kept + [attrs[j]];
        }
      }
      assert attrs[..|attrs|] == attrs;
      attrs := kept;
    }

    method Advertise(newPort: nat, candidates: seq<string>)
      modifies this
      ensures Value() == Advertising(old(Value()), newPort, candidates)
    {
      port := newPort;
      for k := 0 to |candidates|
        invariant Value() == Media(old(line), newPort, old(attrs) + CandidateAttrs(candidates)[..k])
      {
        attrs := attrs + [Attr("candidate", candidates[k])];
      }
    }
  }

  ghost predicate Show(s: seq<SdpMedia>, values: seq<Media>)
    reads s
  {
    |s| == |values| && forall i :: 0 <= i < |s| ==> s[i].Value() == values[i]
  }

  method TurnToReceive(m: SdpMedia) returns (tmp: SdpMedia?)
    ensures tmp == null <==> Senders(m.attrs) == 0
    ensures tmp != null ==> fresh(tmp) && tmp.Value() == m.Value().(attrs := Turned(m.attrs))
  {
    tmp := null;
    for j := 0 to |m.attrs|
      invariant tmp == null <==> Senders(m.attrs[..j]) == 0
      invariant tmp != null ==> fresh(tmp)
      invariant tmp != null ==>
        var k := LastSender(m.attrs[..j]);
        tmp.Value() == m.Value().(attrs := m.attrs[k := m.attrs[k].(name := "recvonly")])
    {
      assert m.attrs[..j + 1][..j] == m.attrs[..j];
      if Sends(m.attrs[j]) {
        tmp := new SdpMedia.Clone(m);
        tmp.attrs := tmp.attrs[j := tmp.attrs[j].(name := "recvonly")];
      }
    }
    assert m.attrs[..|m.attrs|] == m.attrs;
  }

  lemma {:induction false} NothingOffered()
    ensures Selected([]) == [] && Picked([]) == []
  {
  }

  lemma {:induction false} AnswerableIs(m: Media)
    requires Senders(m.attrs) > 0
    ensures Answerable(m) == m.(attrs := WithoutCandidates(Turned(m.attrs)))
  {
  }

  method SelectMedia(offer: seq<SdpMedia>, ghost values: seq<Media>) returns (mediaToReceive: seq<SdpMedia>)
    requires Show(offer, values)
    ensures fresh(mediaToReceive) && Distinct(mediaToReceive)
    ensures Show(mediaToReceive, Selected(values)) && Show(offer, values)
  {
    hide Selected, Answerable, WithoutCandidates, Senders, Turned;
    NothingOffered();
    mediaToReceive := [];
    for i := 0 to |offer|
      invariant fresh(mediaToReceive) && Distinct(mediaToReceive)
      invariant Show(mediaToReceive, Selected(values[..i])) && Show(offer, values)
    {
      assert values[..i + 1][..i] == values[..i];
      LastOffered(values[..i + 1]);
      var tmp := TurnToReceive(offer[i]);
      if tmp != null {
        tmp.RemoveCandidates();
        AnswerableIs(values[i]);
        var copy := new SdpMedia.Clone(tmp);
        mediaToReceive := mediaToReceive + [copy];
      }
    }
    assert values[..|values|] == values;
  }

  /** Writes the port and candidates of component i + 1 into media i. */
  method CreateSdpAnswer(media: seq<SdpMedia>, trans: PJICEStreamTrans, ghost values: seq<Media>)
    requires Distinct(media) && Show(media, values)
    requires |media| == |trans.comps| && ComponentsFine(trans.comps)
    modifies media
    ensures Show(media, Advertised(values, trans.comps))
  {
    ListsSufficeIff(trans.comps);
    var candidates := trans.GetComponents();
    var defaultPorts := trans.GetFirstCandidatePorts();
    for i := 0 to |media|
      invariant forall k :: 0 <= k < i ==> media[k].Value() == Advertising(values[k], defaultPorts[k], candidates[k])
      invariant forall k :: i <= k < |media| ==> media[k].Value() == values[k]
    {
      media[i].Advertise(defaultPorts[i], candidates[i]);
    }
  }

  /** One writer for each media, called back for the component that the media is advertised on. */
  method WireWriters(n: nat, trans: PJICEStreamTrans) returns (rtpWriters: seq<Writer>)
    requires n == |trans.comps| && trans.Valid()
    modifies trans.dataCbs
    ensures fresh(rtpWriters) && trans.Wired(rtpWriters)
    ensures forall i :: 0 <= i < n ==> rtpWriters[i].received == []
  {
    rtpWriters := [];
    for i := 0 to n
      invariant |rtpWriters| == i && fresh(rtpWriters) && Distinct(rtpWriters)
      invariant forall k :: 0 <= k < i ==> trans.dataCbs[k] == rtpWriters[k] && rtpWriters[k].received == []
    {
      var writer := new Writer();
      rtpWriters := rtpWriters + [writer];
      var _ := trans.SetDataCb(|rtpWriters|, writer);
    }
  }

  /** From an offer to an answer whose media i says where writer i listens. */
  method AnswerOffer(offer: seq<SdpMedia>, trans: PJICEStreamTrans, ghost values: seq<Media>)
    returns (answer: seq<SdpMedia>, rtpWriters: seq<Writer>)
    requires Show(offer, values) && trans.Valid()
    requires |trans.comps| == |Selected(values)| && ComponentsFine(trans.comps)
    modifies trans.dataCbs
    ensures Show(answer, Advertised(Selected(values), trans.comps)) && Show(offer, values)
    ensures trans.Wired(rtpWriters) && fresh(rtpWriters)
    ensures forall i :: 0 <= i < |rtpWriters| ==> rtpWriters[i].received == []
  {
    answer := SelectMedia(offer, values);
    rtpWriters := WireWriters(|answer|, trans);
    CreateSdpAnswer(answer, trans, Selected(values));
  }
}
