/** The components of an ICE transport and who is called back for them (plugins/pjsip/pj-ice-stream-trans.cpp).
    Components are numbered from 1. */
module IceTransport {

  datatype Component = Component(defaultFound: bool, enumerated: bool, port: nat, candidates: seq<string>)

  /** Stops at the first component without a default candidate. */
  function Ports(comps: seq<Component>): seq<nat> {
    if comps == [] || !comps[0].defaultFound then [] else [comps[0].port] + Ports(comps[1..])
  }

  /** Stops at the first component with a problem, which leaves an empty list. */
  function CandidateLists(comps: seq<Component>): seq<seq<string>> {
    if comps == [] then []
    else if !comps[0].defaultFound || !comps[0].enumerated then [[]]
    else [comps[0].candidates] + CandidateLists(comps[1..])
  }

  function Listed(c: Component): seq<string> { if c.enumerated then c.candidates else [] }

  predicate ComponentsFine(comps: seq<Component>) {
    && (forall i :: 0 <= i < |comps| ==> comps[i].defaultFound)
    && (forall i :: 0 <= i < |comps| - 1 ==> comps[i].enumerated)
  }

  /** There is a port and a list of candidates for each component exactly when nothing fails, but for the candidates
      of the last component; those that are there are its own. */
  lemma {:induction false} ListsSufficeIff(comps: seq<Component>)
    ensures (|Ports(comps)| == |comps| && |CandidateLists(comps)| == |comps|) <==> ComponentsFine(comps)
    ensures |Ports(comps)| <= |comps| && |CandidateLists(comps)| <= |comps|
    ensures ComponentsFine(comps) ==> forall i :: 0 <= i < |comps| ==>
      && Ports(comps)[i] == comps[i].port
      && CandidateLists(comps)[i] == Listed(comps[i])
    decreases |comps|
  {
    if comps != [] {
      ListsSufficeIff(comps[1..]);
      if ComponentsFine(comps) && |comps| > 1 {
        assert comps[0].enumerated;
        assert forall i :: 0 <= i < |comps[1..]| - 1 ==> comps[1..][i] == comps[i + 1];
        assert ComponentsFine(comps[1..]);
      }
      if ComponentsFine(comps[1..]) && comps[0].defaultFound && comps[0].enumerated {
        assert forall i :: 1 <= i < |comps| ==> comps[i] == comps[1..][i - 1];
      }
    }
  }

  /** The candidates up to the first component with a problem, k, which gets an empty list. */
  lemma {:induction false} ListsUntilProblem(comps: seq<Component>, k: nat)
    requires k <= |comps| && forall i :: 0 <= i < k ==> comps[i].defaultFound && comps[i].enumerated
    requires k < |comps| ==> !comps[k].defaultFound || !comps[k].enumerated
    ensures |CandidateLists(comps)| == if k < |comps| then k + 1 else k
    ensures forall i :: 0 <= i < k ==> CandidateLists(comps)[i] == comps[i].candidates
    ensures k < |comps| ==> CandidateLists(comps)[k] == []
    decreases k
  {
    if k > 0 {
      ListsUntilProblem(comps[1..], k - 1);
    }
  }

  /** The ports up to the first component without a default candidate, k. */
  lemma {:induction false} PortsUntilProblem(comps: seq<Component>, k: nat)
    requires k <= |comps| && forall i :: 0 <= i < k ==> comps[i].defaultFound
    requires k < |comps| ==> !comps[k].defaultFound
    ensures |Ports(comps)| == k && forall i :: 0 <= i < k ==> Ports(comps)[i] == comps[i].port
    decreases k
  {
    if k > 0 {
      PortsUntilProblem(comps[1..], k - 1);
    }
  }

  datatype Packet = Packet(comp: nat, data: string)

  /** The packets that arrive on a component, in order. */
  function OnComponent(packets: seq<Packet>, comp: nat): seq<string> {
    if packets == [] then []
    else
      var n := |packets| - 1;
      OnComponent(packets[..n], comp) + if packets[n].comp == comp then [packets[n].data] else []
  }

  /** Each packet of a component is received once, in the order of arrival, and nothing else is: at says which packet
      each thing received came in. */
  lemma {:induction false} ReceivedInOrder(packets: seq<Packet>, comp: nat) returns (at: seq<nat>)
    ensures |at| == |OnComponent(packets, comp)|
    ensures forall k :: 0 <= k < |at| ==>
      at[k] < |packets| && packets[at[k]] == Packet(comp, OnComponent(packets, comp)[k])
    ensures forall j, k :: 0 <= j < k < |at| ==> at[j] < at[k]
    ensures forall i :: 0 <= i < |packets| && packets[i].comp == comp ==> i in at
    decreases |packets|
  {
    hide OnComponent;
    LastPacket(packets, comp);
    at := [];
    if packets != [] {
      var n := |packets| - 1;
      var before := ReceivedInOrder(packets[..n], comp);
      at := before + if packets[n].comp == comp then [n] else [];
      forall i | 0 <= i < |packets| && packets[i].comp == comp ensures i in at {
        if i < n {
          assert packets[..n][i] == packets[i];
          assert i in before;
        }
      }
    }
  }

  lemma {:induction false} LastPacket(packets: seq<Packet>, comp: nat)
    ensures packets == [] ==> OnComponent(packets, comp) == []
    ensures packets != [] ==>
      var n := |packets| - 1;
      OnComponent(packets, comp) ==
        OnComponent(packets[..n], comp) + if packets[n].comp == comp then [packets[n].data] else []
  {
  }

  ghost predicate Distinct<T>(s: seq<T>) {
    forall i, j :: 0 <= i < j < |s| ==> s[i] != s[j]
  }

  /** A shmdata writer, with what it was given to write. */
  class Writer {
    var received: seq<string>

    constructor ()
      ensures received == []
    {
      received := [];
    }

    method CopyToShm(data: string)
      modifies this
      ensures received == old(received) + [data]
    {
      received := received + [data];
    }
  }

  class PJICEStreamTrans {
    const comps: seq<Component>        // what the library has for each
    const dataCbs: array<Writer?>

    predicate Valid() { dataCbs.Length == |comps| }

    /** Component i + 1 has writer i. */
    ghost predicate Wired(writers: seq<Writer>)
      reads dataCbs
    {
      && Valid() && Distinct(writers) && |writers| == |comps|
      && forall i :: 0 <= i < |writers| ==> dataCbs[i] == writers[i]
    }

    constructor (comps: seq<Component>)
      ensures Valid() && this.comps == comps && fresh(dataCbs)
      ensures forall i :: 0 <= i < dataCbs.Length ==> dataCbs[i] == null
    {
      this.comps := comps;
      dataCbs := new Writer?[|comps|](_ => null);
    }

    method GetComponents() returns (res: seq<seq<string>>)
      ensures res == CandidateLists(comps)
    {
      res := [];
      for comp := 0 to |comps|
        invariant res + CandidateLists(comps[comp..]) == CandidateLists(comps)
      {
        assert comps[comp..][1..] == comps[comp + 1..];
        if !comps[comp].defaultFound {
          return res + [[]];
        }
        if !comps[comp].enumerated {
          return res + [[]];
        }
        res := res + [comps[comp].candidates];
      }
    }

    method GetFirstCandidatePorts() returns (res: seq<nat>)
      ensures res == Ports(comps)
    {
      res := [];
      for comp := 0 to |comps|
        invariant res + Ports(comps[comp..]) == Ports(comps)
      {
        assert comps[comp..][1..] == comps[comp + 1..];
        if !comps[comp].defaultFound {
          return;
        }
        res := res + [comps[comp].port];
      }
    }

    method SetDataCb(compId: nat, cb: Writer) returns (ok: bool)
      requires compId > 0
      modifies dataCbs
      ensures ok <==> compId <= dataCbs.Length
      ensures dataCbs[..] == if ok then old(dataCbs[..])[compId - 1 := cb] else old(dataCbs[..])
    {
      if compId > dataCbs.Length {
        return false;
      }
      dataCbs[compId - 1] := cb;
      return true;
    }

    method CbOnRxData(compId: nat, data: string)
      requires 0 < compId <= dataCbs.Length
      modifies if dataCbs[compId - 1] == null then {} else {dataCbs[compId - 1]}
      ensures var cb := dataCbs[compId - 1]; cb != null ==> cb.received == old(cb.received) + [data]
    {
      if dataCbs[compId - 1] != null {
        dataCbs[compId - 1].CopyToShm(data);
      }
    }

    /** However packets are mixed, writer i gets those of component i + 1, all of them and in order. */
    method Receive(packets: seq<Packet>, writers: seq<Writer>)
      requires Wired(writers) && forall k :: 0 <= k < |packets| ==> 0 < packets[k].comp <= |writers|
      modifies writers
      ensures forall i :: 0 <= i < |writers| ==>
        writers[i].received == old(writers[i].received) + OnComponent(packets, i + 1)
    {
      for k := 0 to |packets|
        invariant Wired(writers)
        invariant forall i :: 0 <= i < |writers| ==>
          writers[i].received == old(writers[i].received) + OnComponent(packets[..k], i + 1)
      {
        assert packets[..k + 1][..k] == packets[..k];
        CbOnRxData(packets[k].comp, packets[k].data);
      }
      assert packets[..|packets|] == packets;
    }
  }
}
