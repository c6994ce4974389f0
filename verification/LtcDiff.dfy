/** The time difference between two LTC sources (plugins/timecode/ltc-diff.cpp): each reader finds out
    the frame rate of its source and keeps its last timecode; a callback publishes the difference of
    two timecodes and drops them. Decoded frames come from libltc and are inputs here; the C++ doubles
    are reals. */
module LtcDiff {

  // ---- Frame rate detection

  /** fps_: 30 until the rate is known. tmp: the last frame number since the first zero. */
  datatype Detector = Detector(fps: nat, tmp: nat, detected: bool, firstZero: bool)

  const UNSURE := Detector(30, 0, false, false)

  function Feed(d: Detector, frame: nat): (r: Detector)
    ensures d.fps >= 1 ==> r.fps >= 1
  {
    if d.detected then d
    else if !d.firstZero then (if frame == 0 then d.(firstZero := true) else d)
    else if frame == 0 then d.(fps := d.tmp + 1, detected := true)
    else d.(tmp := frame)
  }

  function FeedAll(d: Detector, frames: seq<nat>): (r: Detector)
    ensures d.fps >= 1 ==> r.fps >= 1
  {
    if frames == [] then d else Feed(FeedAll(d, frames[..|frames| - 1]), frames[|frames| - 1])
  }

  /** The first n frame numbers of a source at `rate` frames a second that starts at `start`. */
  function Consecutive(rate: nat, start: nat, n: nat): seq<nat>
    requires rate >= 1
  {
    seq(n, i requires 0 <= i => (start + i) % rate)
  }

  function FirstZeroAt(rate: nat, start: nat): (z: nat)
    requires start < rate
    ensures z < rate
  {
    if start == 0 then 0 else rate - start
  }

  lemma {:induction false} FrameNumber(rate: nat, start: nat, i: nat)
    requires start < rate && i <= FirstZeroAt(rate, start) + rate
    ensures var z := FirstZeroAt(rate, start);
      (start + i) % rate == if i < z then start + i else if i < z + rate then i - z else 0
  {
    var z := FirstZeroAt(rate, start);
    if i == z + rate {
      assert start + i == rate * (if start == 0 then 1 else 2);
    } else if i >= z && start != 0 {
      assert start + i == rate * 1 + (i - z);
    }
  }

  /** The detector after any number of consecutive frames. */
  function Expected(rate: nat, start: nat, n: nat): Detector
    requires start < rate
  {
    var z := FirstZeroAt(rate, start);
    if n <= z then UNSURE
    else if n <= z + rate then Detector(30, n - 1 - z, false, true)
    else Detector(rate, rate - 1, true, true)
  }

  /** On consecutive frames from any start the detector settles at the second zero frame, on the rate
      of the source, within two rounds; before it keeps its 30, afterwards nothing changes it. */
  lemma {:induction false} SettlesOnRate(rate: nat, start: nat, n: nat)
    requires start < rate
    ensures FeedAll(UNSURE, Consecutive(rate, start, n)) == Expected(rate, start, n)
    ensures n >= 2 * rate ==> FeedAll(UNSURE, Consecutive(rate, start, n)).fps == rate
    decreases n
  {
    if n > 0 {
      SettlesOnRate(rate, start, n - 1);
      var frames := Consecutive(rate, start, n);
      assert frames[..n - 1] == Consecutive(rate, start, n - 1);
      if n - 1 <= FirstZeroAt(rate, start) + rate {
        FrameNumber(rate, start, n - 1);
      }
    }
  }

  lemma {:induction false} FeedKeepsTrack(frames: seq<nat>)
    ensures var d := FeedAll(UNSURE, frames);
      && (d.firstZero && !d.detected ==> frames != [] && d.tmp == frames[|frames| - 1])
      && (!d.firstZero ==> d.tmp == 0)
      && (!d.detected ==> d.fps == 30)
  {
    if frames != [] {
      FeedKeepsTrack(frames[..|frames| - 1]);
    }
  }

  /** On any frames at all, a detector that settles takes the frame number just before the second zero
      for the last one of a second: a rate is found right exactly when that frame was not lost. */
  lemma {:induction false} SettlesOnFrameBefore(frames: seq<nat>, frame: nat, more: seq<nat>)
    requires !FeedAll(UNSURE, frames).detected && FeedAll(UNSURE, frames + [frame]).detected
    ensures frames != [] && frame == 0
    ensures FeedAll(UNSURE, frames + [frame] + more).fps == frames[|frames| - 1] + 1
  {
    assert (frames + [frame])[..|frames|] == frames;
    FeedKeepsTrack(frames);
    DetectedForGood(UNSURE, frames + [frame], more);
  }

  lemma {:induction false} DetectedForGood(d: Detector, frames: seq<nat>, more: seq<nat>)
    requires FeedAll(d, frames).detected
    ensures FeedAll(d, frames + more) == FeedAll(d, frames)
    decreases |more|
  {
    if more == [] {
      assert frames + more == frames;
    } else {
      DetectedForGood(d, frames, more[..|more| - 1]);
      assert (frames + more)[..|frames + more| - 1] == frames + more[..|more| - 1];
    }
  }

  // ---- Timecodes

  datatype Timecode = Timecode(hours: nat, mins: nat, secs: nat, frame: nat)
  {
    function WholeSeconds(): nat { hours * 3600 + mins * 60 + secs }

    function Seconds(fps: nat): real
      requires fps >= 1
    {
      WholeSeconds() as real + frame as real / fps as real
    }

    /** How many frames into the day. */
    function FrameIndex(fps: nat): nat { WholeSeconds() * fps + frame }
  }

  /** The timecode one frame later. */
  function NextFrame(tc: Timecode, fps: nat): Timecode {
    if tc.frame + 1 < fps then tc.(frame := tc.frame + 1)
    else if tc.secs + 1 < 60 then Timecode(tc.hours, tc.mins, tc.secs + 1, 0)
    else if tc.mins + 1 < 60 then Timecode(tc.hours, tc.mins + 1, 0, 0)
    else Timecode(tc.hours + 1, 0, 0, 0)
  }

  predicate OnClock(tc: Timecode, fps: nat) { tc.mins < 60 && tc.secs < 60 && tc.frame < fps }

  function FramesLater(tc: Timecode, fps: nat, n: nat): Timecode {
    if n == 0 then tc else NextFrame(FramesLater(tc, fps, n - 1), fps)
  }

  /** The index counts the frames that the clock goes through, and the seconds go up by one frame each. */
  lemma {:induction false} IndexCountsFrames(tc: Timecode, fps: nat, n: nat)
    requires fps >= 1 && OnClock(tc, fps)
    ensures var later := FramesLater(tc, fps, n);
      && OnClock(later, fps) && later.FrameIndex(fps) == tc.FrameIndex(fps) + n
      && later.Seconds(fps) == tc.Seconds(fps) + n as real / fps as real
  {
    if n > 0 {
      IndexCountsFrames(tc, fps, n - 1);
      OneFrameOn(FramesLater(tc, fps, n - 1), fps);
    }
    var later := FramesLater(tc, fps, n);
    SecondsAreFrames(tc, fps);
    SecondsAreFrames(later, fps);
    Quotients(tc.FrameIndex(fps) as real, n as real, fps as real);
  }

  lemma {:induction false} OneFrameOn(tc: Timecode, fps: nat)
    requires fps >= 1 && OnClock(tc, fps)
    ensures OnClock(NextFrame(tc, fps), fps) && NextFrame(tc, fps).FrameIndex(fps) == tc.FrameIndex(fps) + 1
  {
    var next := NextFrame(tc, fps);
    if next.frame == 0 {
      assert next.WholeSeconds() == tc.WholeSeconds() + 1;
      assert next.WholeSeconds() * fps == tc.WholeSeconds() * fps + fps;
    }
  }

  lemma {:induction false} SecondsAreFrames(tc: Timecode, fps: nat)
    requires fps >= 1
    ensures tc.Seconds(fps) == tc.FrameIndex(fps) as real / fps as real
  {
    var f := fps as real;
    assert tc.WholeSeconds() as real == (tc.WholeSeconds() * fps) as real / f;
  }

  function Abs(x: real): real { if x >= -x then x else -x }

  /** Timecodes k frames apart differ by 1000 * k / fps milliseconds. */
  lemma {:induction false} FramesApart(a: Timecode, b: Timecode, fps: nat, k: nat)
    requires fps >= 1
    requires a.FrameIndex(fps) == b.FrameIndex(fps) + k || b.FrameIndex(fps) == a.FrameIndex(fps) + k
    ensures Abs(a.Seconds(fps) - b.Seconds(fps)) * 1000.0 == 1000.0 * k as real / fps as real
  {
    SecondsAreFrames(a, fps);
    SecondsAreFrames(b, fps);
    if a.FrameIndex(fps) >= b.FrameIndex(fps) {
      Quotients(b.FrameIndex(fps) as real, k as real, fps as real);
    } else {
      Quotients(a.FrameIndex(fps) as real, k as real, fps as real);
    }
  }

  lemma {:induction false} Quotients(x: real, k: real, f: real)
    requires f > 0.0 && k >= 0.0
    ensures (x + k) / f - x / f == k / f >= 0.0
    ensures k / f * 1000.0 == 1000.0 * k / f
  {
  }

  // ---- Readers

  /** serial: which of all the timecodes ever kept this one is. */
  datatype Reader = Reader(detector: Detector, timecode: real, serial: nat)

  /** What the decoding loop makes of the frames of one buffer: the detector and `timecode_secs`. */
  function Decode(d: Detector, decoded: seq<Timecode>): (r: (Detector, real))
    requires d.fps >= 1
    ensures r.0.fps >= 1
  {
    if decoded == [] then (d, 0.0)
    else
      var before := Decode(d, decoded[..|decoded| - 1]).0;
      var last := decoded[|decoded| - 1];
      var now := Feed(before, last.frame);
      (now, last.Seconds(now.fps))
  }

  function FramesOf(decoded: seq<Timecode>): seq<nat> {
    seq(|decoded|, i requires 0 <= i < |decoded| => decoded[i].frame)
  }

  /** Every decoded frame goes through the detector. */
  lemma {:induction false} DecodeFeeds(d: Detector, decoded: seq<Timecode>)
    requires d.fps >= 1
    ensures Decode(d, decoded).0 == FeedAll(d, FramesOf(decoded))
    decreases |decoded|
  {
    if decoded != [] {
      var n := |decoded| - 1;
      DecodeFeeds(d, decoded[..n]);
      assert FramesOf(decoded)[..n] == FramesOf(decoded[..n]);
    }
  }

  function Heard(r: Reader, silent: bool, decoded: seq<Timecode>, serial: nat): Reader
    requires r.detector.fps >= 1
  {
    if silent then r
    else
      var (d, secs) := Decode(r.detector, decoded);
      if secs != 0.0 then Reader(d, secs, serial) else r.(detector := d)
  }

  datatype Follower = Ltc1 | Ltc2

  /** Two uses of timecodes and the value made of them. */
  datatype Publication = Publication(value: real, first: Reader, second: Reader)

  datatype Diff = Diff(readers: map<Follower, Reader>, compute: bool, next: nat, log: seq<Publication>)

  const NOTHING := Diff(map[], false, 0, [])

  datatype Op =
    | Connect(f: Follower)
    | Disconnect(f: Follower)
    | Data(f: Follower, silent: bool, decoded: seq<Timecode>)
    | Tick

  predicate Both(d: Diff) { Ltc1 in d.readers && Ltc2 in d.readers }

  function Dropped(r: Reader): Reader { r.(timecode := 0.0) }

  /** The callback of the cadencing follower. */
  function Computed(d: Diff): Diff {
    if !Both(d) then d
    else if !d.compute && (d.readers[Ltc1].timecode == 0.0 || d.readers[Ltc2].timecode == 0.0) then d
    else Compared(d.(compute := true))
  }

  /** Its second half: timecodes are taken one after the other until one is missing. */
  function Compared(d: Diff): Diff
    requires Both(d)
  {
    var (a, b) := (d.readers[Ltc1], d.readers[Ltc2]);
    if a.timecode == 0.0 then d
    else if b.timecode == 0.0 then d.(readers := d.readers[Ltc1 := Dropped(a)])
    else d.(readers := map[Ltc1 := Dropped(a), Ltc2 := Dropped(b)],
            log := d.log + [Publication(Abs(a.timecode - b.timecode) * 1000.0, a, b)])
  }

  function Step(d: Diff, op: Op): Diff
    requires RatesOk(d)
  {
    match op
    case Connect(f) => d.(readers := d.readers[f := Reader(UNSURE, 0.0, 0)])
    case Disconnect(f) => if f in d.readers then d.(readers := d.readers - {f}, compute := false) else d
    case Data(f, silent, decoded) =>
      if f in d.readers then
        d.(readers := d.readers[f := Heard(d.readers[f], silent, decoded, d.next)], next := d.next + 1)
      else d
    case Tick => Computed(d)
  }

  predicate RatesOk(d: Diff) {
    forall f :: f in d.readers ==> d.readers[f].detector.fps >= 1
  }

  predicate Uses(p: Publication, serial: nat) {
    p.first.serial == serial || p.second.serial == serial
  }

  /** Each publication is made of two different nonzero timecodes, no timecode is in two of them, and
      none that is still kept is in any. */
  ghost predicate SingleUse(d: Diff) {
    && RatesOk(d)
    && (d.compute ==> Both(d))
    && (forall f :: f in d.readers && d.readers[f].timecode != 0.0 ==> d.readers[f].serial < d.next)
    && (Both(d) && d.readers[Ltc1].timecode != 0.0 && d.readers[Ltc2].timecode != 0.0 ==>
          d.readers[Ltc1].serial != d.readers[Ltc2].serial)
    && (forall i :: 0 <= i < |d.log| ==>
      Proper(d.log[i]) && d.log[i].first.serial < d.next && d.log[i].second.serial < d.next)
    && (forall i, f :: 0 <= i < |d.log| && f in d.readers && d.readers[f].timecode != 0.0 ==>
          !Uses(d.log[i], d.readers[f].serial))
    && (forall i, j :: 0 <= i < j < |d.log| ==> Apart(d.log[i], d.log[j]))
  }

  predicate Apart(p: Publication, q: Publication) {
    !Uses(p, q.first.serial) && !Uses(p, q.second.serial)
  }

  predicate Proper(p: Publication) {
    && p.first.timecode != 0.0 && p.second.timecode != 0.0 && p.first.serial != p.second.serial
    && p.value == Abs(p.first.timecode - p.second.timecode) * 1000.0
  }

  lemma {:induction false} StepKeepsSingleUse(d: Diff, op: Op)
    requires SingleUse(d)
    ensures SingleUse(Step(d, op))
  {
    match op
    case Data(f, silent, decoded) => DataKeepsSingleUse(d, f, silent, decoded);
    case Tick => TickKeepsSingleUse(d);
    case _ =>
  }

  lemma {:induction false} DataKeepsSingleUse(d: Diff, f: Follower, silent: bool, decoded: seq<Timecode>)
    requires SingleUse(d)
    ensures SingleUse(Step(d, Data(f, silent, decoded)))
  {
    var e := Step(d, Data(f, silent, decoded));
    forall i, g | 0 <= i < |e.log| && g in e.readers && e.readers[g].timecode != 0.0
      ensures !Uses(e.log[i], e.readers[g].serial)
    {
      assert Proper(d.log[i]);
      assert d.readers[g].timecode != 0.0 ==> !Uses(d.log[i], d.readers[g].serial);
    }
  }

  lemma {:induction false} TickKeepsSingleUse(d: Diff)
    requires SingleUse(d)
    ensures SingleUse(Computed(d))
  {
    var e := Computed(d);
    if e.log == d.log {
      forall i, g | 0 <= i < |e.log| && g in e.readers && e.readers[g].timecode != 0.0
        ensures !Uses(e.log[i], e.readers[g].serial)
      {
        assert !Uses(d.log[i], d.readers[g].serial);
      }
    } else {
      forall g | g in e.readers ensures e.readers[g].timecode == 0.0 {
        assert g == Ltc1 || g == Ltc2;
      }
    }
  }

  function Run(d: Diff, ops: seq<Op>): Diff
    requires SingleUse(d)
    decreases ops
  {
    if ops == [] then d else StepKeepsSingleUse(d, ops[0]); Run(Step(d, ops[0]), ops[1..])
  }

  lemma {:induction false} RunKeepsSingleUse(d: Diff, ops: seq<Op>)
    requires SingleUse(d)
    ensures SingleUse(Run(d, ops))
    decreases ops
  {
    if ops != [] {
      StepKeepsSingleUse(d, ops[0]);
      RunKeepsSingleUse(Step(d, ops[0]), ops[1..]);
    }
  }

  /** Over any run of connections, buffers and ticks: every published value is the distance of two
      different nonzero timecodes, and no timecode is ever used twice. */
  lemma {:induction false} EachTimecodeUsedOnce(ops: seq<Op>, i: nat, j: nat)
    requires i <= j < |Run(NOTHING, ops).log|
    ensures var log := Run(NOTHING, ops).log;
      && Proper(log[i])
      && (i < j ==> Apart(log[i], log[j]))
  {
    RunKeepsSingleUse(NOTHING, ops);
  }

  /** Exactly when a tick publishes: both readers are there and both have a timecode. Its value then
      joins them and both timecodes are dropped. */
  lemma {:induction false} TickPublishesIff(d: Diff)
    requires SingleUse(d)
    ensures var e := Computed(d);
      (|e.log| == |d.log| + 1 <==> Both(d) && d.readers[Ltc1].timecode != 0.0 && d.readers[Ltc2].timecode != 0.0)
      && (e.log == d.log || (e.log[..|d.log|] == d.log && |e.log| == |d.log| + 1
            && e.log[|d.log|].first == d.readers[Ltc1] && e.log[|d.log|].second == d.readers[Ltc2]
            && e.readers == map[Ltc1 := d.readers[Ltc1].(timecode := 0.0), Ltc2 := d.readers[Ltc2].(timecode := 0.0)]))
      && (e.compute <==> d.compute || |e.log| == |d.log| + 1) && e.next == d.next
  {
  }

  /** A tick that publishes nothing still drops a timecode exactly when the difference has been
      computed before and only the first reader has one. */
  lemma {:induction false} TickLosesTimecodeIff(d: Diff)
    requires SingleUse(d) && Computed(d).log == d.log
    ensures Computed(d).readers != d.readers <==>
      d.compute && d.readers[Ltc1].timecode != 0.0 && d.readers[Ltc2].timecode == 0.0
    ensures Computed(d).readers != d.readers ==>
      Ltc1 in d.readers && Computed(d).readers == d.readers[Ltc1 := d.readers[Ltc1].(timecode := 0.0)]
  {
    var e := Computed(d);
    if d.compute && d.readers[Ltc1].timecode != 0.0 && d.readers[Ltc2].timecode == 0.0 {
      assert e.readers[Ltc1] != d.readers[Ltc1];
    }
  }

  // ---- What a run remembers

  lemma {:induction false} RunLast(d: Diff, ops: seq<Op>)
    requires SingleUse(d) && ops != []
    ensures var n := |ops| - 1;
      && SingleUse(Run(d, ops[..n])) && Run(d, ops) == Step(Run(d, ops[..n]), ops[n])
    decreases ops
  {
    var n := |ops| - 1;
    StepKeepsSingleUse(d, ops[0]);
    if n == 0 {
      assert ops[..0] == [] && ops[1..] == [];
      assert Run(Step(d, ops[0]), []) == Step(d, ops[0]);
    } else {
      RunLast(Step(d, ops[0]), ops[1..]);
      assert ops[1..][..n - 1] == ops[..n][1..];
    }
  }

  /** The frame numbers decoded for a follower since it was connected last. */
  function FramesSince(ops: seq<Op>, f: Follower): seq<nat> {
    if ops == [] then []
    else
      var n := |ops| - 1;
      match ops[n]
      case Connect(g) => if g == f then [] else FramesSince(ops[..n], f)
      case Data(g, silent, decoded) =>
        FramesSince(ops[..n], f) + if g == f && !silent then FramesOf(decoded) else []
      case _ => FramesSince(ops[..n], f)
  }

  lemma {:induction false} FeedMore(d: Detector, a: seq<nat>, b: seq<nat>)
    ensures FeedAll(d, a + b) == FeedAll(FeedAll(d, a), b)
    decreases |b|
  {
    if b == [] {
      assert a + b == a;
    } else {
      var n := |b| - 1;
      FeedMore(d, a, b[..n]);
      assert (a + b)[..|a + b| - 1] == a + b[..n];
    }
  }

  /** In every run the detector of a reader has been fed exactly the frames since it was connected, from the start. */
  lemma {:induction false} DetectorHearsAll(ops: seq<Op>, f: Follower)
    requires f in Run(NOTHING, ops).readers
    ensures Run(NOTHING, ops).readers[f].detector == FeedAll(UNSURE, FramesSince(ops, f))
    decreases |ops|
  {
    hide Run, Computed, Heard, SingleUse, FeedAll;
    NothingIsFine();
    EmptyRun(NOTHING);
    if ops != [] {
      var n := |ops| - 1;
      var before := Run(NOTHING, ops[..n]);
      RunLast(NOTHING, ops);
      StepDetector(before, ops[n], f);
      if !(ops[n].Connect? && ops[n].f == f) {
        DetectorHearsAll(ops[..n], f);
        if ops[n].Data? && ops[n].f == f && !ops[n].silent {
          FeedMore(UNSURE, FramesSince(ops[..n], f), FramesOf(ops[n].decoded));
        } else {
          assert FramesSince(ops[..n], f) + [] == FramesSince(ops[..n], f);
          FedNothing(before.readers[f].detector);
        }
      } else {
        assert FramesSince(ops, f) == [];
        FedNothing(UNSURE);
      }
    }
  }

  lemma {:induction false} NothingIsFine()
    ensures SingleUse(NOTHING)
  {
  }

  lemma {:induction false} EmptyRun(d: Diff)
    requires SingleUse(d)
    ensures Run(d, []) == d
  {
  }

  lemma {:induction false} FedNothing(d: Detector)
    ensures FeedAll(d, []) == d
  {
  }

  /** What a step does to the detector of a reader. */
  lemma {:induction false} StepDetector(d: Diff, op: Op, f: Follower)
    requires SingleUse(d) && f in Step(d, op).readers
    ensures op.Connect? && op.f == f ==> Step(d, op).readers[f].detector == UNSURE
    ensures !(op.Connect? && op.f == f) ==> f in d.readers
    ensures !(op.Connect? && op.f == f) ==>
      var fed := if op.Data? && op.f == f && !op.silent then FramesOf(op.decoded) else [];
      Step(d, op).readers[f].detector == FeedAll(d.readers[f].detector, fed)
  {
    hide FeedAll;
    if f in d.readers {
      FedNothing(d.readers[f].detector);
    }
    match op
    case Data(g, silent, decoded) =>
      if g == f && f in d.readers {
        DecodeFeeds(d.readers[f].detector, decoded);
      }
    case _ =>
  }

  /** A difference has been published, and no reader taken away since. */
  ghost predicate ComparedSince(ops: seq<Op>)
    requires SingleUse(NOTHING)
  {
    ops != [] &&
      var n := |ops| - 1;
      var before := Run(NOTHING, ops[..n]);
      match ops[n]
      case Disconnect(f) => f !in before.readers && ComparedSince(ops[..n])
      case Tick => ComparedSince(ops[..n]) || |Run(NOTHING, ops).log| > |before.log|
      case _ => ComparedSince(ops[..n])
  }

  /** In every run, once a difference has been published the readers are taken one after the other, until one is taken
      away. */
  lemma {:induction false} ComputeIff(ops: seq<Op>)
    ensures SingleUse(NOTHING) && (Run(NOTHING, ops).compute <==> ComparedSince(ops))
    decreases |ops|
  {
    hide Computed, Heard, SingleUse;
    NothingIsFine();
    if ops != [] {
      var n := |ops| - 1;
      ComputeIff(ops[..n]);
      RunLast(NOTHING, ops);
      if ops[n].Tick? {
        TickPublishesIff(Run(NOTHING, ops[..n]));
      }
    } else {
      EmptyRun(NOTHING);
    }
  }

  // ---- Two readers in step

  /** Two readers that have settled on the same rate hear timecodes k frames apart on the same day: the
      next tick publishes 1000 * k / rate milliseconds. */
  lemma {:induction false} PublishesFrameDistance(d: Diff, a: Timecode, b: Timecode, rate: nat, k: nat)
    requires SingleUse(d) && Both(d) && rate >= 1
    requires forall f :: f in d.readers ==> d.readers[f].detector.detected && d.readers[f].detector.fps == rate
    requires a.FrameIndex(rate) != 0 && b.FrameIndex(rate) != 0
    requires a.FrameIndex(rate) == b.FrameIndex(rate) + k || b.FrameIndex(rate) == a.FrameIndex(rate) + k
    ensures var e := Run(d, [Data(Ltc1, false, [a]), Data(Ltc2, false, [b]), Tick]);
      |e.log| == |d.log| + 1 && e.log[|d.log|].value == 1000.0 * k as real / rate as real
  {
    var ops := [Data(Ltc1, false, [a]), Data(Ltc2, false, [b]), Tick];
    assert ops[1..] == [Data(Ltc2, false, [b]), Tick] && ops[1..][1..] == [Tick] && ops[1..][1..][1..] == [];
    var d1 := Step(d, ops[0]);
    StepKeepsSingleUse(d, ops[0]);
    OneFrame(d, Ltc1, a);
    var d2 := Step(d1, ops[1]);
    StepKeepsSingleUse(d1, ops[1]);
    OneFrame(d1, Ltc2, b);
    StepKeepsSingleUse(d2, Tick);
    assert Run(d, ops) == Run(d1, ops[1..]) == Run(d2, [Tick]) == Computed(d2);
    TickOfTwo(d2, a, b, rate, k);
  }

  lemma {:induction false} TickOfTwo(d: Diff, a: Timecode, b: Timecode, rate: nat, k: nat)
    requires SingleUse(d) && Both(d) && rate >= 1
    requires d.readers[Ltc1].timecode == a.Seconds(rate) && d.readers[Ltc2].timecode == b.Seconds(rate)
    requires a.FrameIndex(rate) != 0 && b.FrameIndex(rate) != 0
    requires a.FrameIndex(rate) == b.FrameIndex(rate) + k || b.FrameIndex(rate) == a.FrameIndex(rate) + k
    ensures |Computed(d).log| == |d.log| + 1 && Computed(d).log[|d.log|].value == 1000.0 * k as real / rate as real
  {
    NonzeroSeconds(a, rate);
    NonzeroSeconds(b, rate);
    FramesApart(a, b, rate, k);
  }

  lemma {:induction false} OnlyTwo<T>(m: map<Follower, T>)
    requires Ltc1 in m && Ltc2 in m
    ensures m == map[Ltc1 := m[Ltc1], Ltc2 := m[Ltc2]] && m.Keys == {Ltc1, Ltc2}
  {
    forall f | f in m ensures f == Ltc1 || f == Ltc2 { }
  }

  lemma {:induction false} NonzeroSeconds(tc: Timecode, fps: nat)
    requires fps >= 1 && tc.FrameIndex(fps) != 0
    ensures tc.Seconds(fps) != 0.0
  {
    SecondsAreFrames(tc, fps);
    assert tc.FrameIndex(fps) as real / fps as real > 0.0;
  }

  /** A buffer gives a reader a timecode, that of its last frame, unless it is silent, has no frame, or its last frame
      is the first of the day: midnight counts as no timecode, at whatever rate is known then. */
  lemma {:induction false} TimecodeKeptIff(r: Reader, silent: bool, decoded: seq<Timecode>, serial: nat)
    requires r.detector.fps >= 1 && serial != r.serial
    ensures var after, d := Heard(r, silent, decoded, serial), Decode(r.detector, decoded).0;
      && d.fps >= 1
      && (after.serial == r.serial <==>
        silent || decoded == [] || decoded[|decoded| - 1].FrameIndex(d.fps) == 0)
      && after.detector == (if silent then r.detector else FeedAll(r.detector, FramesOf(decoded)))
      && (after.serial == r.serial ==> after.timecode == r.timecode)
      && (after.serial != r.serial ==>
        after.serial == serial && after.timecode == decoded[|decoded| - 1].Seconds(d.fps) != 0.0)
  {
    var (d, secs) := Decode(r.detector, decoded);
    DecodeFeeds(r.detector, decoded);
    if decoded != [] {
      var last := decoded[|decoded| - 1];
      assert secs == last.Seconds(d.fps);
      NoSecondsIff(last, d.fps);
    }
  }

  lemma {:induction false} NoSecondsIff(tc: Timecode, fps: nat)
    requires fps >= 1
    ensures tc.Seconds(fps) == 0.0 <==> tc.FrameIndex(fps) == 0
  {
    SecondsAreFrames(tc, fps);
    if tc.FrameIndex(fps) != 0 {
      NonzeroSeconds(tc, fps);
    }
  }

  /** Midnight is the only such time. */
  lemma {:induction false} MidnightIff(tc: Timecode, fps: nat)
    requires fps >= 1
    ensures tc.FrameIndex(fps) == 0 <==> tc.hours == tc.mins == tc.secs == tc.frame == 0
  {
    if tc.WholeSeconds() > 0 {
      assert tc.WholeSeconds() * fps >= fps;
    }
  }

  lemma {:induction false} OneFrame(d: Diff, f: Follower, tc: Timecode)
    requires RatesOk(d) && f in d.readers && d.readers[f].detector.detected
    requires tc.FrameIndex(d.readers[f].detector.fps) != 0
    ensures var r := d.readers[f];
      Step(d, Data(f, false, [tc])) ==
        d.(readers := d.readers[f := Reader(r.detector, tc.Seconds(r.detector.fps), d.next)], next := d.next + 1)
  {
    var r := d.readers[f];
    NonzeroSeconds(tc, r.detector.fps);
    assert [tc][..|[tc]| - 1] == [];
    assert Decode(r.detector, [tc]) == (r.detector, tc.Seconds(r.detector.fps));
  }

  // ---- The objects

  class LTCReader {
    var timecode: real
    var fps: nat
    var tmpFps: nat
    var fpsDetected: bool
    var firstZeroDetected: bool
    ghost var serial: nat

    ghost function View(): Reader
      reads this
    {
      Reader(Detected(), timecode, serial)
    }

    function Detected(): Detector
      reads this
    {
      Detector(fps, tmpFps, fpsDetected, firstZeroDetected)
    }

    constructor ()
      ensures View() == Reader(UNSURE, 0.0, 0)
    {
      timecode, fps, tmpFps, fpsDetected, firstZeroDetected, serial := 0.0, 30, 0, false, false, 0;
    }

    /** samples: the buffer as unsigned bytes; decoded: the frames libltc has for it. */
    method OnData(samples: seq<nat>, decoded: seq<Timecode>, ghost stamp: nat)
      requires fps >= 1
      modifies this
      ensures View() == Heard(old(View()), forall i :: 0 <= i < |samples| ==> 126 <= samples[i] <= 129, decoded, stamp)
    {
      var silence := true;
      var i := 0;
      while i < |samples|
        invariant i <= |samples| && silence
        invariant forall k :: 0 <= k < i ==> 126 <= samples[k] <= 129
      {
        if samples[i] < 126 || samples[i] > 129 {
          silence := false;
          break;
        }
        i := i + 1;
      }
      if silence {
        return;
      }
      ghost var start := Detected();
      var timecodeSecs := 0.0;
      for n := 0 to |decoded|
        invariant fps >= 1 && timecode == old(timecode) && serial == old(serial)
        invariant (Detected(), timecodeSecs) == Decode(start, decoded[..n])
      {
        var tc := decoded[n];
        DetectRate(tc.frame);
        timecodeSecs := (tc.hours * 3600 + tc.mins * 60 + tc.secs) as real + tc.frame as real / fps as real;
        assert decoded[..n + 1][..n] == decoded[..n];
      }
      assert decoded[..|decoded|] == decoded;
      if timecodeSecs != 0.0 {
        timecode := timecodeSecs;
        serial := stamp;
      }
    }

    method DetectRate(frame: nat)
      modifies `fps, `tmpFps, `fpsDetected, `firstZeroDetected
      ensures Detected() == Feed(old(Detected()), frame)
    {
      if !fpsDetected {
        if !firstZeroDetected && frame == 0 {
          firstZeroDetected := true;
        } else if firstZeroDetected {
          if frame == 0 {
            fps := tmpFps + 1;
            fpsDetected := true;
          } else {
            tmpFps := frame;
          }
        }
      }
    }
  }

  /** The map of readers and the callback that compares them. */
  class LTCDiff {
    var readers: map<Follower, LTCReader>
    var doCompute: bool
    var published: seq<real>
    ghost var next: nat
    ghost var log: seq<Publication>

    ghost predicate Valid()
      reads this, readers.Values
    {
      && (Ltc1 in readers && Ltc2 in readers ==> readers[Ltc1] != readers[Ltc2])
      && |published| == |log| && (forall i :: 0 <= i < |log| ==> published[i] == log[i].value)
      && RatesOk(View()) && (doCompute ==> Both(View()))
    }

    ghost function View(): Diff
      reads this, readers.Values
    {
      Diff(map f | f in readers :: readers[f].View(), doCompute, next, log)
    }

    constructor ()
      ensures Valid() && View() == NOTHING
    {
      readers, doCompute, published, next, log := map[], false, [], 0, [];
    }

    method OnShmdataConnect(f: Follower)
      requires Valid()
      modifies this
      ensures Valid() && View() == Step(old(View()), Connect(f)) && f in readers && fresh(readers[f])
    {
      var reader := new LTCReader();
      readers := readers[f := reader];
      assert View() == Step(old(View()), Connect(f));
    }

    method OnShmdataDisconnect(f: Follower)
      requires Valid()
      modifies this
      ensures Valid() && View() == Step(old(View()), Disconnect(f))
    {
      if f in readers {
        readers := readers - {f};
        doCompute := false;
      }
      assert View() == Step(old(View()), Disconnect(f));
    }

    method Compute()
      requires Valid()
      modifies this, readers.Values
      ensures Valid() && readers == old(readers) && View() == Computed(old(View()))
    {
      if !doCompute {
        if !(Ltc1 in readers && Ltc2 in readers) {
          return;
        }
        if readers[Ltc1].timecode == 0.0 || readers[Ltc2].timecode == 0.0 {
          return;
        }
        doCompute := true;
      }
      ghost var computing := View();
      assert computing == old(View()).(compute := true);
      CompareTimecodes();
      OnlyTwo(View().readers);
      OnlyTwo(Compared(computing).readers);
    }

    method CompareTimecodes()
      requires Valid() && Both(View())
      modifies `published, `log, readers.Values
      ensures |published| == |log| && forall i :: 0 <= i < |log| ==> published[i] == log[i].value
      ensures readers[Ltc1].View() == Compared(old(View())).readers[Ltc1]
      ensures readers[Ltc2].View() == Compared(old(View())).readers[Ltc2]
      ensures log == Compared(old(View())).log
    {
      ghost var a, b := readers[Ltc1].View(), readers[Ltc2].View();
      var complete, timeDifference := TakeTimecodes(readers[Ltc1], readers[Ltc2]);
      if complete {
        Publish(timeDifference, a, b);
      }
    }

    method Publish(timeDifference: real, ghost a: Reader, ghost b: Reader)
      modifies `published, `log
      ensures published == old(published) + [Abs(timeDifference) * 1000.0]
      ensures log == old(log) + [Publication(Abs(timeDifference) * 1000.0, a, b)]
    {
      var value := (if timeDifference >= -timeDifference then timeDifference else -timeDifference) * 1000.0;
      published := published + [value];
      log := log + [Publication(value, a, b)];
    }

    /** The loop over the readers: it stops at one without a timecode. */
    static method TakeTimecodes(a: LTCReader, b: LTCReader) returns (complete: bool, timeDifference: real)
      requires a != b
      modifies a`timecode, b`timecode
      ensures complete <==> old(a.timecode) != 0.0 && old(b.timecode) != 0.0
      ensures complete ==> timeDifference == old(a.timecode) - old(b.timecode)
      ensures a.timecode == 0.0
      ensures b.timecode == if complete then 0.0 else old(b.timecode)
    {
      var rs := [a, b];
      timeDifference := 0.0;
      for i := 0 to |rs|
        invariant rs[0].timecode == if i > 0 then 0.0 else old(rs[0].timecode)
        invariant rs[1].timecode == if i > 1 then 0.0 else old(rs[1].timecode)
        invariant forall k :: 0 <= k < i ==> old(rs[k].timecode) != 0.0
        invariant timeDifference ==
          if i == 0 then 0.0 else old(rs[0].timecode) - if i == 1 then 0.0 else old(rs[1].timecode)
      {
        if rs[i].timecode == 0.0 {
          return false, timeDifference;
        }
        if timeDifference == 0.0 {
          timeDifference := timeDifference + rs[i].timecode;
        } else {
          timeDifference := timeDifference - rs[i].timecode;
        }
        rs[i].timecode := 0.0;
      }
      complete := true;
    }
  }
}
