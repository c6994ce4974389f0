/** The frame exchange between the video thread and the render thread
    (plugins/glfw/multiple-buffer.hpp), at the depth the GLFW window instantiates.

    Every frame written gets a number: frame 0 is what the slots hold before any write, frame k is
    the k-th one written. `Indices` is the index state together with the number each slot holds. */
module MultipleBuffer {

  const DEPTH: nat := 3

  datatype Indices = Indices(read: nat, write: nat, stamps: seq<nat>, writes: nat)
  {
    predicate Valid() {
      && |stamps| == DEPTH && read < DEPTH && write < DEPTH
      && stamps[write] == writes
      && (forall i :: 0 <= i < DEPTH ==> stamps[i] <= writes)
      && (write != read ==> stamps[read] < stamps[Next(read)] <= stamps[write])
      && (write == Next(Next(read)) ==> stamps[Next(read)] < stamps[write])
    }
  }

  /** The slot after slot i, going round. */
  function Next(i: nat): nat { if i + 1 == DEPTH then 0 else i + 1 }

  const INITIAL := Indices(0, 0, [0, 0, 0], 0)

  datatype Op = Read | Write

  /** What a call lets its caller see: a read gives a frame and the final value of `has_changed`
      (which the caller passed in as true). */
  datatype Event = Wrote | Got(stamp: nat, changed: bool)

  function WriteTarget(b: Indices): nat {
    if b.read == Next(b.write) then Next(Next(b.write)) else Next(b.write)
  }

  function AfterWrite(b: Indices): Indices
    requires b.Valid()
  {
    var next := WriteTarget(b);
    b.(write := next, stamps := b.stamps[next := b.writes + 1], writes := b.writes + 1)
  }

  function AfterRead(b: Indices): Indices {
    if b.read != b.write then b.(read := Next(b.read)) else b
  }

  function Step(b: Indices, op: Op): (r: (Indices, Event))
    requires b.Valid()
    ensures r.0.Valid()
  {
    match op
    case Write => (AfterWrite(b), Wrote)
    case Read => (AfterRead(b), Got(b.stamps[b.read], b.read != b.write))
  }

  function Final(b: Indices, ops: seq<Op>): (r: Indices)
    requires b.Valid()
    ensures r.Valid()
    decreases ops
  {
    if ops == [] then b else Final(Step(b, ops[0]).0, ops[1..])
  }

  function Trace(b: Indices, ops: seq<Op>): (t: seq<Event>)
    requires b.Valid()
    ensures |t| == |ops|
    decreases ops
  {
    if ops == [] then [] else [Step(b, ops[0]).1] + Trace(Step(b, ops[0]).0, ops[1..])
  }

  function CountWrites(ops: seq<Op>): nat {
    if ops == [] then 0 else (if ops[0].Write? then 1 else 0) + CountWrites(ops[1..])
  }

  /** A write never lands on the slot the next read will return, and it leaves the frames waiting
      in the other slots alone except the one it replaces. */
  lemma {:induction false} WriteSparesReadSlot(b: Indices)
    requires b.Valid()
    ensures WriteTarget(b) < DEPTH && WriteTarget(b) != b.read && WriteTarget(b) != b.write
    ensures AfterWrite(b).stamps[b.read] == b.stamps[b.read]
    ensures AfterWrite(b).Valid()
  {
  }

  /** Nothing read from here on is older than the frame at the read index. */
  lemma {:induction false} NothingOlder(b: Indices, ops: seq<Op>, j: nat)
    requires b.Valid() && j < |ops| && ops[j].Read?
    ensures Trace(b, ops)[j].Got? && b.stamps[b.read] <= Trace(b, ops)[j].stamp
    decreases ops
  {
    if j > 0 {
      var next := Step(b, ops[0]).0;
      NothingOlder(next, ops[1..], j - 1);
      assert b.stamps[b.read] <= next.stamps[next.read];
    }
  }

  /** Over any run, reads never go back in write order, and a frame reported as changed is never
      returned again: every later read returns a strictly newer one. */
  lemma {:induction false} ReadsNeverGoBack(b: Indices, ops: seq<Op>, i: nat, j: nat)
    requires b.Valid() && i < j < |ops| && ops[i].Read? && ops[j].Read?
    ensures Trace(b, ops)[i].Got? && Trace(b, ops)[j].Got?
    ensures Trace(b, ops)[i].stamp <= Trace(b, ops)[j].stamp
    ensures Trace(b, ops)[i].changed ==> Trace(b, ops)[i].stamp < Trace(b, ops)[j].stamp
    decreases ops
  {
    var next := Step(b, ops[0]).0;
    if i == 0 {
      NothingOlder(next, ops[1..], j - 1);
    } else {
      ReadsNeverGoBack(next, ops[1..], i - 1, j - 1);
    }
  }

  /** A read leaves `has_changed` true exactly when the frame it returns is not the newest one: a
      renderer that uploads only changed frames stays at least one write behind. */
  lemma {:induction false} ChangedIffNotNewest(b: Indices, ops: seq<Op>, i: nat)
    requires b.Valid() && i < |ops| && ops[i].Read?
    ensures Trace(b, ops)[i].Got?
    ensures Trace(b, ops)[i].stamp <= b.writes + CountWrites(ops[..i])
    ensures Trace(b, ops)[i].changed <==> Trace(b, ops)[i].stamp != b.writes + CountWrites(ops[..i])
    decreases ops
  {
    if i > 0 {
      ChangedIffNotNewest(Step(b, ops[0]).0, ops[1..], i - 1);
      assert ops[..i] == [ops[0]] + ops[1..][..i - 1];
    }
  }

  function Distance(b: Indices): nat {
    if b.read == b.write then 0 else if Next(b.read) == b.write then 1 else 2
  }

  /** Once writing stops, the third read and every later one return the newest frame. */
  lemma {:induction false} ReadsSettle(b: Indices, ops: seq<Op>, i: nat)
    requires b.Valid() && i < |ops| && (forall k :: 0 <= k < |ops| ==> ops[k].Read?)
    ensures i >= Distance(b) ==> Trace(b, ops)[i] == Got(b.writes, false)
    ensures i >= 2 ==> Trace(b, ops)[i] == Got(b.writes, false)
    decreases ops
  {
    var next := Step(b, ops[0]).0;
    if i > 0 {
      ReadsSettle(next, ops[1..], i - 1);
    }
  }

  /** A held frame that is newer than frame x and older than frame y. */
  predicate Between(stamps: seq<nat>, i: nat, x: nat, y: nat) {
    i < |stamps| && x < stamps[i] < y
  }

  /** A read moves on to a newer frame, writes nothing, and passes over a frame that is still held exactly when the
      writer is one slot ahead and the slot after it is newer than the one read: that is after the writer has gone
      round the reader. Without a newer frame it stays. */
  lemma {:induction false} ReadPassesOverIff(b: Indices)
    requires b.Valid()
    ensures var c := AfterRead(b);
      && c.stamps == b.stamps && c.write == b.write && c.writes == b.writes && c.read < DEPTH
      && (b.read == b.write ==> c.read == b.read)
      && (b.read != b.write ==>
        && b.stamps[b.read] < b.stamps[c.read]
        && ((exists i :: Between(b.stamps, i, b.stamps[b.read], b.stamps[c.read])) <==>
          b.write == Next(b.read) && b.stamps[b.read] < b.stamps[Next(b.write)] < b.stamps[b.write]))
  {
    var c := AfterRead(b);
    if b.read != b.write {
      var third := Next(b.write);
      assert Between(b.stamps, third, b.stamps[b.read], b.stamps[c.read]) <==>
        b.stamps[b.read] < b.stamps[third] < b.stamps[c.read];
    }
  }

  /** It happens: three writes in front of a reader that stands still. */
  lemma {:induction false} ThreeWritesPassOver()
    ensures var b := Final(INITIAL, [Write, Write, Write]);
      Between(b.stamps, 2, b.stamps[b.read], b.stamps[AfterRead(b).read])
  {
    var ops := [Write, Write, Write];
    assert ops[1..] == [Write, Write] && ops[1..][1..] == [Write] && ops[1..][1..][1..] == [];
    var b1 := AfterWrite(INITIAL);
    var b2 := AfterWrite(b1);
    var b3 := AfterWrite(b2);
    assert Final(INITIAL, ops) == Final(b1, [Write, Write]) == Final(b2, [Write]) == Final(b3, []) == b3;
    assert b3 == Indices(0, 1, [0, 3, 2], 3);
  }

  /** The slot a changed read has just handed out is no longer protected: the very next write
      overwrites it exactly when the writer was two slots ahead. */
  lemma {:induction false} HandedOutSlotOverwrittenIff(b: Indices)
    requires b.Valid() && b.read != b.write
    ensures WriteTarget(AfterRead(b)) == b.read <==> b.write == Next(Next(b.read))
    ensures WriteTarget(AfterWrite(AfterRead(b))) == b.read <==> b.write == Next(b.read)
  {
  }

  /** What a slot holds after `frame` has been copied over its first elements. */
  function Overlay<T>(frame: seq<T>, slot: seq<T>): (r: seq<T>)
    requires |frame| <= |slot|
    ensures |r| == |slot|
    ensures forall k :: 0 <= k < |slot| ==> r[k] == if k < |frame| then frame[k] else slot[k]
  {
    frame + slot[|frame|..]
  }

  lemma {:induction false} OverlayFull<T>(frame: seq<T>, slot: seq<T>)
    requires |frame| == |slot|
    ensures Overlay(frame, slot) == frame
  {
  }

  function Resized<T>(slot: seq<T>, size: nat, zero: T): (r: seq<T>)
    ensures |r| == size
    ensures forall k :: 0 <= k < size ==> r[k] == if k < |slot| then slot[k] else zero
  {
    if size <= |slot| then slot[..size] else slot + seq(size - |slot|, _ => zero)
  }

  /** Each slot holds the frame its number says, and all slots have the same size. */
  ghost predicate SlotsHold<T>(slots: seq<seq<T>>, stamps: seq<nat>, frames: seq<seq<T>>) {
    && |slots| == |stamps| == DEPTH
    && (forall i :: 0 <= i < DEPTH ==> stamps[i] < |frames| && slots[i] == frames[stamps[i]])
    && (forall i :: 0 <= i < DEPTH ==> |slots[i]| == |slots[0]|)
  }

  lemma {:induction false} SlotsHoldAfterWrite<T>(slots: seq<seq<T>>, stamps: seq<nat>, frames: seq<seq<T>>, i: nat,
      frame: seq<T>)
    requires SlotsHold(slots, stamps, frames) && i < DEPTH && |frame| == |slots[0]|
    ensures SlotsHold(slots[i := frame], stamps[i := |frames|], frames + [frame])
  {
  }

  class Buffer<T> {
    var readIndex: nat
    var writeIndex: nat
    const data: array<seq<T>>
    const zero: T
    /** frames[k] is frame number k as a slot holding it shows it. */
    ghost var frames: seq<seq<T>>
    ghost var stamps: seq<nat>

    ghost function Model(): Indices
      reads this
      requires |frames| > 0
    {
      Indices(readIndex, writeIndex, stamps, |frames| - 1)
    }

    ghost predicate Valid()
      reads this, data
    {
      && |frames| > 0 && Model().Valid()
      && data.Length == DEPTH
      && SlotsHold(data[..], stamps, frames)
    }

    ghost function Size(): nat
      reads this, data
      requires Valid()
    {
      |data[0]|
    }

    constructor (zero: T)
      ensures Valid() && fresh(data)
      ensures Model() == INITIAL && frames == [[]] && Size() == 0
    {
      this.zero := zero;
      readIndex, writeIndex := 0, 0;
      data := new seq<T>[DEPTH](_ => []);
      frames, stamps := [[]], [0, 0, 0];
    }

    method Read(hasChangedIn: bool) returns (frame: seq<T>, hasChanged: bool)
      requires Valid()
      modifies `readIndex
      ensures Valid()
      ensures Model() == AfterRead(old(Model()))
      ensures frame == frames[old(stamps[readIndex])]
      ensures hasChanged == (hasChangedIn && old(readIndex != writeIndex))
    {
      frame := data[readIndex];
      hasChanged := hasChangedIn;
      if readIndex != writeIndex {
        readIndex := (readIndex + 1) % DEPTH;
      } else {
        hasChanged := false;
      }
    }

    method Write(frame: seq<T>)
      requires Valid() && |frame| <= Size()
      modifies `writeIndex, `frames, `stamps, data
      ensures Valid() && Size() == old(Size())
      ensures Model() == AfterWrite(old(Model()))
      ensures frames == old(frames) + [Overlay(frame, old(data[WriteTarget(Model())]))]
      ensures |frame| == Size() ==> frames == old(frames) + [frame]
      ensures data[readIndex] == old(data[readIndex])
    {
      WriteSparesReadSlot(Model());
      var next := NextWrite();
      var slot := data[next];
      SlotsHoldAfterWrite(data[..], stamps, frames, next, Overlay(frame, slot));
      if |frame| == |slot| {
        OverlayFull(frame, slot);
      }
      writeIndex := next;
      data[next] := frame + slot[|frame|..];
      stamps := stamps[next := |frames|];
      frames := frames + [Overlay(frame, slot)];
      assert data[..] == old(data[..])[next := Overlay(frame, slot)];
    }

    /** The slot `write` fills. */
    method NextWrite() returns (next: nat)
      requires Valid()
      ensures next == WriteTarget(Model()) < DEPTH
    {
      next := (writeIndex + 1) % DEPTH;
      if readIndex == next {
        next := (next + 1) % 3;
      }
    }

    method Resize(size: nat)
      requires Valid()
      modifies `frames, data
      ensures Valid() && Size() == size
      ensures Model() == old(Model())
      ensures |frames| == |old(frames)|
      ensures forall k :: 0 <= k < |frames| ==> frames[k] == Resized(old(frames[k]), size, zero)
    {
      for i := 0 to DEPTH
        invariant unchanged(`frames) && unchanged(`stamps)
        invariant forall k :: 0 <= k < i ==> data[k] == Resized(old(data[k]), size, zero)
        invariant forall k :: i <= k < DEPTH ==> data[k] == old(data[k])
      {
        data[i] := Resized(data[i], size, zero);
      }
      frames := seq(|frames|, k requires 0 <= k < |old(frames)| => Resized(old(frames[k]), size, zero));
    }
  }
}
