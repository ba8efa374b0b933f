// The browser's audio path: captured samples cut into frames, played samples
// from a bounded queue, and resampling in between.  Samples are exact numbers.
module VoiceAudio {

  // ------------------------------------------------------------------ capture

  const FRAME := 960
  const FRAME_MICROS := 20000

  datatype Frame = Frame(pcm: seq<real>, timestamp: nat)

  /** The capture handler: `posted` is what the codec worker was sent since the start, `captured`
      everything the worklet delivered since then. */
  class Capture {
    var samples: seq<real>
    var timestamp: nat
    var posted: seq<Frame>
    ghost var captured: seq<real>

    ghost predicate Valid()
      reads this
    {
      && timestamp == FRAME_MICROS * |posted|
      && FRAME * |posted| <= |captured| < FRAME * |posted| + FRAME
      && Cuts(captured, posted) && samples == captured[FRAME * |posted|..]
    }

    constructor ()
      ensures Valid() && captured == []
    {
      samples, timestamp, posted, captured := [], 0, [], [];
    }

    /** One block: it is appended, and every full frame is cut off the front and posted. */
    method OnBlock(block: seq<real>)
      requires Valid()
      modifies this
      ensures Valid() && captured == old(captured) + block && old(posted) <= posted
    {
      samples := samples + block;
      captured := captured + block;
      assert samples == captured[FRAME * |posted|..];
      while |samples| >= FRAME
        invariant timestamp == FRAME_MICROS * |posted| && FRAME * |posted| <= |captured|
        invariant captured == old(captured) + block && old(posted) <= posted
        invariant Cuts(captured, posted) && samples == captured[FRAME * |posted|..]
        decreases |samples|
      {
        var frame := samples[..FRAME];
        samples := samples[FRAME..];
        posted := posted + [Frame(frame, timestamp)];
        timestamp := timestamp + FRAME_MICROS;
      }
    }
  }

  /** Frame by frame a cut of the samples, 960 each and 20000 microseconds apart. */
  ghost predicate Cuts(captured: seq<real>, posted: seq<Frame>) {
    forall k :: 0 <= k < |posted| ==> IsCut(captured, posted[k], k)
  }

  predicate IsCut(captured: seq<real>, f: Frame, k: nat) {
    FRAME * k + FRAME <= |captured| && f == Frame(captured[FRAME * k..FRAME * k + FRAME], FRAME_MICROS * k)
  }

  function Concat(frames: seq<Frame>): seq<real> {
    if frames == [] then [] else Concat(frames[..|frames| - 1]) + frames[|frames| - 1].pcm
  }

  /** No sample is lost, doubled or moved: the frames one after another are the captured samples up
      to where the remainder starts. */
  lemma {:induction false} FramesAreTheSamples(captured: seq<real>, posted: seq<Frame>)
    requires Cuts(captured, posted) && FRAME * |posted| <= |captured|
    ensures Concat(posted) == captured[..960 * |posted|]
    ensures forall k :: 0 <= k < |posted| ==> |posted[k].pcm| == 960 && posted[k].timestamp == 20000 * k
  {
    if posted != [] {
      var n := |posted| - 1;
      FramesAreTheSamples(captured, posted[..n]);
      assert IsCut(captured, posted[n], n);
      assert captured[..FRAME * n] + captured[FRAME * n..FRAME * n + FRAME] == captured[..FRAME * (n + 1)];
      forall k | 0 <= k < |posted| ensures |posted[k].pcm| == FRAME && posted[k].timestamp == FRAME_MICROS * k {
        assert IsCut(captured, posted[k], k);
      }
    }
  }

  /** How the samples were cut into blocks does not show in the frames. */
  lemma FramingIgnoresBlocks(captured: seq<real>, a: seq<Frame>, b: seq<Frame>)
    requires Cuts(captured, a) && Cuts(captured, b)
    requires FRAME * |a| <= |captured| < FRAME * |a| + FRAME && FRAME * |b| <= |captured| < FRAME * |b| + FRAME
    ensures a == b
  {
  }

  // ----------------------------------------------------------------- playback

  const QUEUE_LIMIT := 10

  datatype Queue = Queue(packets: seq<seq<real>>, offset: nat)

  const EMPTY := Queue([], 0)

  function Flat(ps: seq<seq<real>>): seq<real> {
    if ps == [] then [] else ps[0] + Flat(ps[1..])
  }

  predicate Formed(q: Queue) {
    |q.packets| <= QUEUE_LIMIT && q.offset <= (if q.packets == [] then 0 else |q.packets[0]|)
  }

  /** The samples that are still to be played. */
  function Pending(q: Queue): seq<real>
    requires Formed(q)
  {
    if q.packets == [] then [] else q.packets[0][q.offset..] + Flat(q.packets[1..])
  }

  /** The samples in the packet that an overflow would drop. */
  function Head(q: Queue): nat
    requires Formed(q)
  {
    if q.packets == [] then 0 else |q.packets[0]| - q.offset
  }

  lemma {:induction false} FlatOneMore(ps: seq<seq<real>>, p: seq<real>)
    ensures Flat(ps + [p]) == Flat(ps) + p
  {
    if ps == [] {
      assert Flat([p]) == p + Flat([p][1..]);
      assert p + [] == p && [] + p == p;
    } else {
      FlatOneMore(ps[1..], p);
      assert (ps + [p])[1..] == ps[1..] + [p];
    }
  }

  /** The queue after a packet was pushed. */
  function Pushed(q: Queue, packet: seq<real>): Queue {
    if |q.packets| < QUEUE_LIMIT then Queue(q.packets + [packet], q.offset) else Queue(q.packets[1..] + [packet], 0)
  }

  function Skipped(q: Queue): Queue
    decreases |q.packets|
  {
    if q.packets != [] && q.offset >= |q.packets[0]| then Skipped(Queue(q.packets[1..], 0)) else q
  }

  function Advanced(q: Queue): Queue {
    var s := Skipped(q);
    if s.packets == [] then s else s.(offset := s.offset + 1)
  }

  /** The queue after `n` samples were asked for. */
  function Played(q: Queue, n: nat): Queue {
    if n == 0 then q else Advanced(Played(q, n - 1))
  }

  function MinNat(a: nat, b: nat): nat { if a < b then a else b }

  function Drop(s: seq<real>, n: nat): seq<real> {
    if n <= |s| then s[n..] else []
  }

  /** The sample at `i`, or silence after the end. */
  function SampleAt(s: seq<real>, i: nat): real {
    if i < |s| then s[i] else 0.0
  }

  lemma DropOneMore(s: seq<real>, n: nat)
    ensures if Drop(s, n) == [] then SampleAt(s, n) == 0.0 && Drop(s, n + 1) == []
            else SampleAt(s, n) == Drop(s, n)[0] && Drop(s, n + 1) == Drop(s, n)[1..]
  {
  }

  class Playback {
    var queue: seq<seq<real>>
    var offset: nat
    var dropped: nat

    function Current(): Queue
      reads this
    {
      Queue(queue, offset)
    }

    ghost predicate Valid()
      reads this
    {
      Formed(Current()) && dropped == 0
    }

    constructor ()
      ensures Valid() && Current() == EMPTY
    {
      queue, offset, dropped := [], 0, 0;
    }

    method Flush()
      requires Valid()
      modifies this
      ensures Valid() && Current() == EMPTY
    {
      queue, offset := [], 0;
    }

    /** One packet goes to the back; over ten, packets go from the front, are counted, and reported. */
    method Push(packet: seq<real>) returns (reported: nat)
      requires Valid()
      modifies this
      ensures Valid()
      ensures Current() == Pushed(old(Current()), packet)
      ensures reported == if |old(queue)| == QUEUE_LIMIT then 1 else 0
      ensures reported == 0 ==> Pending(Current()) == old(Pending(Current())) + packet
      ensures reported == 1 ==> old(Head(Current())) <= |old(Pending(Current()))|
                                && Pending(Current()) == old(Pending(Current()))[old(Head(Current()))..] + packet
    {
      ghost var before := Current();
      if |queue| < QUEUE_LIMIT {
        PushAppends(before, packet);
      } else {
        PushDropsHead(before, packet);
      }
      queue := queue + [packet];
      while |queue| > QUEUE_LIMIT
        invariant dropped <= 1 && |queue| == |before.packets| + 1 - dropped
        invariant dropped == 0 ==> queue == before.packets + [packet] && offset == before.offset
        invariant dropped == 1 ==> |before.packets| == QUEUE_LIMIT && queue == before.packets[1..] + [packet] && offset == 0
      {
        queue := queue[1..];
        offset := 0;
        dropped := dropped + 1;
      }
      reported := dropped;
      if dropped > 0 {
        dropped := 0;
      }
    }

    /** One rendering quantum: the pending samples come first, in order, and then silence. */
    method Process(output: array<real>)
      requires Valid()
      modifies this, output
      ensures Valid() && Current() == Played(old(Current()), output.Length)
      ensures Pending(Current()) == Drop(old(Pending(Current())), output.Length)
      ensures forall i :: 0 <= i < output.Length ==> output[i] == SampleAt(old(Pending(Current())), i)
    {
      ghost var before := Pending(Current());
      for i := 0 to output.Length
        invariant Valid() && Current() == Played(old(Current()), i) && Pending(Current()) == Drop(before, i)
        invariant forall j :: 0 <= j < i ==> output[j] == SampleAt(before, j)
      {
        var sample := NextOut();
        DropOneMore(before, i);
        output[i] := sample;
      }
    }

    /** The next sample, or silence. */
    method NextOut() returns (sample: real)
      requires Valid()
      modifies this
      ensures Valid() && Current() == Advanced(old(Current()))
      ensures var before := old(Pending(Current()));
        if before == [] then sample == 0.0 && Pending(Current()) == []
        else sample == before[0] && Pending(Current()) == before[1..]
    {
      SkipPlayed();
      if queue == [] {
        return 0.0;
      }
      NextSample(Current());
      sample := queue[0][offset];
      offset := offset + 1;
    }

    /** Packets that were played to their end leave the queue. */
    method SkipPlayed()
      requires Valid()
      modifies this
      ensures Valid() && Current() == Skipped(old(Current())) && Pending(Current()) == old(Pending(Current()))
      ensures queue != [] ==> offset < |queue[0]|
    {
      while queue != [] && offset >= |queue[0]|
        invariant Valid() && Skipped(Current()) == Skipped(old(Current())) && Pending(Current()) == old(Pending(Current()))
        decreases |queue|
      {
        PlayedOut(Current());
        queue := queue[1..];
        offset := 0;
      }
    }
  }

  lemma PlayedOut(q: Queue)
    requires Formed(q) && q.packets != [] && q.offset == |q.packets[0]|
    ensures Pending(Queue(q.packets[1..], 0)) == Pending(q)
  {
  }

  lemma NextSample(q: Queue)
    requires Formed(q) && q.packets != [] && q.offset < |q.packets[0]|
    ensures Pending(q) == [q.packets[0][q.offset]] + Pending(q.(offset := q.offset + 1))
  {
  }

  lemma PushAppends(q: Queue, packet: seq<real>)
    requires Formed(q) && |q.packets| < QUEUE_LIMIT
    ensures var t := Queue(q.packets + [packet], q.offset);
      Formed(t) && Pending(t) == Pending(q) + packet
  {
    var t := q.packets + [packet];
    if q.packets == [] {
      assert t == [packet] && packet[0..] == packet && Flat(t[1..]) == [];
      assert packet + [] == packet && [] + packet == packet;
    } else {
      FlatOneMore(q.packets[1..], packet);
      assert t[1..] == q.packets[1..] + [packet];
      assert Pending(Queue(t, q.offset)) == q.packets[0][q.offset..] + (Flat(q.packets[1..]) + packet);
    }
  }

  lemma PushDropsHead(q: Queue, packet: seq<real>)
    requires Formed(q) && |q.packets| == QUEUE_LIMIT
    ensures var t := Queue(q.packets[1..] + [packet], 0);
      Formed(t) && Head(q) <= |Pending(q)| && Pending(t) == Pending(q)[Head(q)..] + packet
  {
    var rest := q.packets[1..];
    var t := rest + [packet];
    FlatOneMore(rest, packet);
    assert Pending(q)[Head(q)..] == Flat(rest);
    assert t[0][0..] == t[0];
  }

  // --------------------------------------------------------- whole playbacks

  datatype Step = PushStep(packet: seq<real>) | FlushStep | PlayStep(count: nat)

  /** A playback with its history: all samples pushed, how many of them are past, and which were heard. */
  datatype Track = Track(q: Queue, pushed: seq<real>, head: nat, heard: seq<nat>, lost: nat)

  function Places(from: nat, count: nat): (s: seq<nat>)
    ensures |s| == count && forall i :: 0 <= i < count ==> s[i] == from + i
  {
    seq(count, i requires 0 <= i < count => from + i)
  }

  function Next(t: Track, s: Step): Track
    requires Formed(t.q)
  {
    match s
    case PushStep(p) =>
      var gone := if |t.q.packets| == QUEUE_LIMIT then Head(t.q) else 0;
      t.(q := Pushed(t.q, p), pushed := t.pushed + p, head := t.head + gone, lost := t.lost + gone)
    case FlushStep => t.(q := EMPTY, head := |t.pushed|, lost := t.lost + |Pending(t.q)|)
    case PlayStep(n) =>
      var count := MinNat(n, |Pending(t.q)|);
      t.(q := Played(t.q, n), head := t.head + count, heard := t.heard + Places(t.head, count))
  }

  /** What is pending is the end of what was pushed; what is past was heard, in order and once, or lost. */
  ghost predicate Tracked(t: Track) {
    && Formed(t.q) && t.head <= |t.pushed| && Pending(t.q) == t.pushed[t.head..]
    && |t.heard| + t.lost == t.head
    && (forall i, j :: 0 <= i < j < |t.heard| ==> t.heard[i] < t.heard[j])
    && (forall i :: 0 <= i < |t.heard| ==> t.heard[i] < t.head)
  }

  lemma {:induction false} SkippedKeepsPending(q: Queue)
    requires Formed(q)
    ensures var s := Skipped(q);
      Formed(s) && Pending(s) == Pending(q) && (s.packets == [] || s.offset < |s.packets[0]|)
    decreases |q.packets|
  {
    if q.packets != [] && q.offset >= |q.packets[0]| {
      PlayedOut(q);
      SkippedKeepsPending(Queue(q.packets[1..], 0));
    }
  }

  lemma AdvancedDropsOne(q: Queue)
    requires Formed(q)
    ensures Formed(Advanced(q)) && Pending(Advanced(q)) == Drop(Pending(q), 1)
  {
    SkippedKeepsPending(q);
    var s := Skipped(q);
    if s.packets != [] {
      NextSample(s);
    }
  }

  lemma {:induction false} PlayedDrops(q: Queue, n: nat)
    requires Formed(q)
    ensures Formed(Played(q, n)) && Pending(Played(q, n)) == Drop(Pending(q), n)
  {
    if n > 0 {
      PlayedDrops(q, n - 1);
      AdvancedDropsOne(Played(q, n - 1));
    }
  }

  lemma PushIsTracked(t: Track, p: seq<real>)
    requires Tracked(t)
    ensures Tracked(Next(t, PushStep(p)))
  {
    var u := Next(t, PushStep(p));
    if |t.q.packets| < QUEUE_LIMIT {
      PushAppends(t.q, p);
      assert u.pushed[u.head..] == t.pushed[t.head..] + p;
    } else {
      PushDropsHead(t.q, p);
      assert u.pushed[u.head..] == t.pushed[t.head..][Head(t.q)..] + p;
    }
  }

  lemma PlayIsTracked(t: Track, n: nat)
    requires Tracked(t)
    ensures Tracked(Next(t, PlayStep(n)))
  {
    var u := Next(t, PlayStep(n));
    PlayedDrops(t.q, n);
    assert Drop(t.pushed[t.head..], n) == t.pushed[u.head..];
  }

  lemma StepIsTracked(t: Track, s: Step)
    requires Tracked(t)
    ensures Tracked(Next(t, s))
  {
    match s
    case PushStep(p) => PushIsTracked(t, p);
    case FlushStep => assert t.pushed[|t.pushed|..] == [];
    case PlayStep(n) => PlayIsTracked(t, n);
  }

  ghost predicate Reaches(t: Track, run: seq<Step>, u: Track)
    decreases |run|
  {
    if run == [] then t == u else Formed(t.q) && Reaches(Next(t, run[0]), run[1..], u)
  }

  /** Over any pushes, flushes and playing: the queue never holds more than ten packets; the samples
      heard are pushed samples, each at most once and in the order they were pushed; and every
      pushed sample was heard, was lost to an overflow or a flush, or is still pending. */
  lemma {:induction false} PlaybackConserves(t: Track, run: seq<Step>, u: Track)
    requires Tracked(t) && Reaches(t, run, u)
    ensures |u.q.packets| <= 10 && Formed(u.q)
    ensures |u.pushed| == |u.heard| + u.lost + |Pending(u.q)|
    ensures forall i, j :: 0 <= i < j < |u.heard| ==> u.heard[i] < u.heard[j]
    ensures forall i :: 0 <= i < |u.heard| ==> u.heard[i] < |u.pushed|
    ensures u.head <= |u.pushed| && Pending(u.q) == u.pushed[u.head..] && t.pushed <= u.pushed && t.heard <= u.heard
    decreases |run|
  {
    if run != [] {
      StepIsTracked(t, run[0]);
      PlaybackConserves(Next(t, run[0]), run[1..], u);
    }
  }

  // --------------------------------------------------------------- resampling

  /** A sample, or what reading outside of the source gives. */
  datatype Sample = Value(x: real) | NotANumber

  function MaxInt(a: int, b: int): int { if a > b then a else b }

  function MinInt(a: int, b: int): int { if a < b then a else b }

  /** `Math.round`: halves go up. */
  function Round(x: real): int {
    (x + 0.5).Floor
  }

  function ResampledLength(n: nat, from: real, to: real): nat
    requires from > 0.0 && to > 0.0
  {
    MaxInt(1, Round(n as real * to / from))
  }

  function Position(i: nat, from: real, to: real): real
    requires from > 0.0 && to > 0.0
  {
    i as real * from / to
  }

  function ReadAt(source: seq<real>, i: int): Sample {
    if 0 <= i < |source| then Value(source[i]) else NotANumber
  }

  function Mix(a: Sample, b: Sample, fraction: real): Sample {
    if a.Value? && b.Value? then Value(a.x * (1.0 - fraction) + b.x * fraction) else NotANumber
  }

  function Interpolate(source: seq<real>, position: real): Sample {
    var left := MinInt(|source| - 1, position.Floor);
    var right := MinInt(|source| - 1, left + 1);
    Mix(ReadAt(source, left), ReadAt(source, right), position - left as real)
  }

  function Resampled(source: seq<real>, from: real, to: real): seq<Sample>
    requires from > 0.0 && to > 0.0
  {
    if from == to then seq(|source|, i requires 0 <= i < |source| => Value(source[i]))
    else seq(ResampledLength(|source|, from, to), i requires 0 <= i => Interpolate(source, Position(i, from, to)))
  }

  /** The output loop. */
  method Resample(source: seq<real>, from: real, to: real) returns (output: seq<Sample>)
    requires from > 0.0 && to > 0.0
    ensures output == Resampled(source, from, to)
  {
    if from == to {
      return seq(|source|, i requires 0 <= i < |source| => Value(source[i]));
    }
    var length := ResampledLength(|source|, from, to);
    var buffer := new Sample[length];
    for i := 0 to length
      invariant forall j :: 0 <= j < i ==> buffer[j] == Interpolate(source, Position(j, from, to))
    {
      var position := Position(i, from, to);
      var left := MinInt(|source| - 1, position.Floor);
      var right := MinInt(|source| - 1, left + 1);
      var fraction := position - left as real;
      buffer[i] := Mix(ReadAt(source, left), ReadAt(source, right), fraction);
    }
    return buffer[..];
  }

  lemma MulMonotone(a: real, b: real, c: real)
    requires a <= b && c > 0.0
    ensures a * c <= b * c
  {
  }

  /** Every position read lies within the source: the clamp on the left never acts. */
  lemma PositionIsWithin(n: nat, from: real, to: real, i: nat)
    requires n > 0 && from > 0.0 && to > 0.0 && i < ResampledLength(n, from, to)
    ensures 0.0 <= Position(i, from, to) < n as real
  {
    if i == 0 {
      assert 0.0 * from / to == 0.0;
    } else {
      var ideal := n as real * to / from;
      assert i as real <= ideal - 0.5;
      MulMonotone(i as real, ideal - 0.5, from);
      assert ideal * from == n as real * to;
      assert i as real * from <= n as real * to - 0.5 * from;
      DivLess(i as real * from, n as real, to);
      DivAtLeastZero(i as real * from, to);
    }
  }

  lemma DivLess(a: real, n: real, to: real)
    requires to > 0.0 && a < n * to
    ensures a / to < n
  {
  }

  lemma DivAtLeastZero(a: real, to: real)
    requires to > 0.0 && a >= 0.0
    ensures a / to >= 0.0
  {
  }

  lemma MixAtMost(a: real, b: real, c: real, d: real, f: real, g: real)
    requires f >= 0.0 && g >= 0.0 && a <= b && c <= d
    ensures a * g + c * f <= b * g + d * f
  {
  }

  lemma WeightsSum(x: real, f: real, g: real)
    requires f + g == 1.0
    ensures x * g + x * f == x
  {
  }

  lemma MixIsBetween(a: real, b: real, f: real, low: real, high: real)
    requires 0.0 <= f <= 1.0 && low <= a <= high && low <= b <= high
    ensures low <= a * (1.0 - f) + b * f <= high
  {
    var g := 1.0 - f;
    MixAtMost(low, a, low, b, f, g);
    MixAtMost(a, high, b, high, f, g);
    WeightsSum(low, f, g);
    WeightsSum(high, f, g);
  }

  lemma InterpolateIsBetween(source: seq<real>, position: real, low: real, high: real)
    requires 0.0 <= position < |source| as real
    requires forall k :: 0 <= k < |source| ==> low <= source[k] <= high
    ensures Interpolate(source, position).Value? && low <= Interpolate(source, position).x <= high
    ensures position == position.Floor as real ==> Interpolate(source, position) == Value(source[position.Floor])
  {
    var left := position.Floor;
    var right := MinInt(|source| - 1, left + 1);
    var f := position - left as real;
    MixIsBetween(source[left], source[right], f, low, high);
    if f == 0.0 {
      assert source[left] * 1.0 + source[right] * 0.0 == source[left];
    }
  }

  lemma AffineMix(slope: real, start: real, l: real, f: real)
    ensures (slope * l + start) * (1.0 - f) + (slope * (l + 1.0) + start) * f == slope * (l + f) + start
  {
    var x := slope * l + start;
    assert slope * (l + 1.0) + start == x + slope;
    assert (x + slope) * f == x * f + slope * f;
    assert x * (1.0 - f) == x - x * f;
    assert slope * (l + f) == slope * l + slope * f;
  }

  /** A straight line stays that line: up to the last sample, the output at a position is the line's
      value there. */
  lemma StraightLineIsKept(source: seq<real>, slope: real, start: real, position: real)
    requires 0.0 <= position <= (|source| - 1) as real
    requires forall k :: 0 <= k < |source| ==> source[k] == slope * k as real + start
    ensures Interpolate(source, position) == Value(slope * position + start)
  {
    var left := position.Floor;
    var f := position - left as real;
    if left < |source| - 1 {
      AffineMix(slope, start, left as real, f);
      assert source[left] == slope * left as real + start;
      assert (left + 1) as real == left as real + 1.0;
      assert source[left + 1] == slope * (left as real + 1.0) + start;
      assert left as real + f == position;
      assert Interpolate(source, position) == Value(source[left] * (1.0 - f) + source[left + 1] * f);
    } else {
      assert f == 0.0;
      assert source[left] * 1.0 + source[left] * 0.0 == source[left];
    }
  }

  /** Resampling a source that has samples only ever reads within it and mixes neighbours by weights
      between zero and one: every output is a number within the source's range, the first one is the
      source's first, and the length is the source's duration to the nearest sample, and at least one. */
  lemma ResampledIsWithin(source: seq<real>, from: real, to: real, low: real, high: real)
    requires source != [] && from > 0.0 && to > 0.0
    requires forall k :: 0 <= k < |source| ==> low <= source[k] <= high
    ensures var out := Resampled(source, from, to);
      && (forall i :: 0 <= i < |out| ==> out[i].Value? && low <= out[i].x <= high)
      && |out| >= 1 && out[0] == Value(source[0])
      && (|out| == 1 || -0.5 <= |out| as real - |source| as real * to / from <= 0.5)
  {
    var out := Resampled(source, from, to);
    if from != to {
      forall i | 0 <= i < |out| ensures out[i].Value? && low <= out[i].x <= high {
        PositionIsWithin(|source|, from, to, i);
        InterpolateIsBetween(source, Position(i, from, to), low, high);
      }
      assert Position(0, from, to) == 0.0;
      InterpolateIsBetween(source, 0.0, low, high);
    } else {
      assert |source| as real * to / from == |source| as real;
    }
  }

  /** Every output is a number exactly when there is a source, or nothing to resample. */
  lemma ResampledIsNumericIff(source: seq<real>, from: real, to: real)
    requires from > 0.0 && to > 0.0
    ensures (forall i :: 0 <= i < |Resampled(source, from, to)| ==> Resampled(source, from, to)[i].Value?)
      <==> source != [] || from == to
  {
    var out := Resampled(source, from, to);
    if source == [] && from != to {
      assert 0.0 * to / from == 0.0;
      assert out[0] == NotANumber;
    } else if from != to {
      forall i | 0 <= i < |out| ensures out[i].Value? {
        PositionIsWithin(|source|, from, to, i);
      }
    }
  }
}
