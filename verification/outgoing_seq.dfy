// Per-stream frame numbers.  Both send paths keep a map from stream to next
// number: the write pump behind the runtime and the plain connection.  The peer
// checks every stream with a contiguous validator.
module OutgoingSeq {

  type Stream = string

  datatype Envelope = Envelope(stream: Stream, seqno: nat)

  /** What one step does to the counters.  `written` is whether the transport took the frame; the
      number is used up either way. */
  datatype Op =
    | Register(stream: Stream, first: nat)     // inserts `first` unless the stream has a counter
    | Announce(stream: Stream)                 // a server announcement: the stream must be new
    | Close(agent: string)                     // forgets every stream of an agent
    | Send(stream: Stream, written: bool)
    | Create(stream: Stream, written: bool)    // a creation stream, whose first frame is number 0

  type Counters = map<Stream, nat>

  predicate BelongsTo(s: Stream, agent: string) {
    "/agent/" + agent + "/" <= s
  }

  /** Whether the code performs the step, rather than panicking or reporting an error. */
  predicate Allowed(m: Counters, op: Op) {
    match op
    case Announce(s) => s !in m
    case Send(s, _) => s in m
    case _ => true
  }

  function Count(m: Counters, op: Op): Counters
    requires Allowed(m, op)
  {
    match op
    case Register(s, n) => if s in m then m else m[s := n]
    case Announce(s) => m[s := 0]
    case Close(agent) => map s | s in m && !BelongsTo(s, agent) :: m[s]
    case Send(s, _) => m[s := m[s] + 1]
    case Create(s, _) => m[s := 1]
  }

  /** The frame that reaches the transport, if any. */
  function Frames(m: Counters, op: Op): seq<Envelope>
    requires Allowed(m, op)
  {
    match op
    case Send(s, true) => [Envelope(s, m[s])]
    case Create(s, true) => [Envelope(s, 0)]
    case _ => []
  }

  lemma SlashEnds(a: string, b: string, rest: string, tail: string)
    requires '/' !in a && '/' !in b && a + "/" + rest == b + "/" + tail
    ensures a == b
  {
    var s := a + "/" + rest;
    assert s[|a|] == '/' && s[|b|] == '/';
    assert forall i :: 0 <= i < |a| ==> s[i] == a[i];
    assert forall i :: 0 <= i < |b| ==> s[i] == b[i];
    assert a == s[..|a|] && b == s[..|b|];
  }

  /** Closing an agent forgets the counters of its own streams, and of no agent whose name only begins
      like its name. */
  lemma BelongsToOwner(owner: string, instance: string, agent: string)
    requires '/' !in owner && '/' !in agent
    ensures BelongsTo("/agent/" + owner + "/" + instance, agent) <==> owner == agent
  {
    var s := "/agent/" + owner + "/" + instance;
    var t := "/agent/" + agent + "/";
    assert s == "/agent/" + (owner + "/" + instance) && t == "/agent/" + (agent + "/");
    assert s[7..] == owner + "/" + instance && t[7..] == agent + "/";
    if owner == agent {
      assert s[..|t|] == t;
    } else if t <= s {
      var tail := s[|t|..];
      assert s == t + tail;
      assert s[7..] == agent + "/" + tail;
      SlashEnds(owner, agent, instance, tail);
    }
  }

  // --------------------------------------------------------------- validator

  function Expected(m: Counters, s: Stream): nat {
    if s in m then m[s] else 0
  }

  class SeqValidator {
    var expected: Counters

    constructor ()
      ensures expected == map[]
    {
      expected := map[];
    }

    method Validate(s: Stream, n: nat) returns (ok: bool)
      modifies this
      ensures ok <==> n == Expected(old(expected), s)
      ensures expected == if ok then old(expected)[s := n + 1] else old(expected)
    {
      var want := Expected(expected, s);
      if n != want {
        return false;
      }
      expected := expected[s := want + 1];
      return true;
    }
  }

  /** How many frames of `s` are in `wire`. */
  function FramesOn(wire: seq<Envelope>, s: Stream): nat {
    if wire == [] then 0
    else FramesOn(wire[..|wire| - 1], s) + if wire[|wire| - 1].stream == s then 1 else 0
  }

  /** A contiguous validator accepts `wire`: on every stream the numbers are 0, 1, 2, ... */
  ghost predicate Accepted(wire: seq<Envelope>) {
    forall i :: 0 <= i < |wire| ==> wire[i].seqno == FramesOn(wire[..i], wire[i].stream)
  }

  method ValidateAll(wire: seq<Envelope>) returns (ok: bool)
    ensures ok <==> Accepted(wire)
  {
    var v := new SeqValidator();
    for i := 0 to |wire|
      invariant Accepted(wire[..i])
      invariant forall s :: Expected(v.expected, s) == FramesOn(wire[..i], s)
    {
      AcceptedOneMore(wire[..i], wire[i]);
      assert wire[..i + 1] == wire[..i] + [wire[i]];
      ok := v.Validate(wire[i].stream, wire[i].seqno);
      if !ok {
        assert !Accepted(wire) by {
          PrefixAccepted(wire, i + 1);
        }
        return false;
      }
    }
    assert wire[..|wire|] == wire;
    return true;
  }

  lemma PrefixAccepted(wire: seq<Envelope>, n: nat)
    requires n <= |wire|
    ensures Accepted(wire) ==> Accepted(wire[..n])
  {
    assert forall i :: 0 <= i < n ==> wire[..n][..i] == wire[..i];
  }

  lemma AcceptedOneMore(wire: seq<Envelope>, e: Envelope)
    ensures Accepted(wire + [e]) <==> Accepted(wire) && e.seqno == FramesOn(wire, e.stream)
    ensures forall s :: FramesOn(wire + [e], s) == FramesOn(wire, s) + if e.stream == s then 1 else 0
  {
    var w := wire + [e];
    assert w[..|wire|] == wire;
    forall i | 0 <= i < |wire| ensures w[..i] == wire[..i] && w[i] == wire[i] {}
    if Accepted(w) {
      assert w[|wire|].seqno == FramesOn(w[..|wire|], w[|wire|].stream);
      forall i | 0 <= i < |wire| ensures wire[i].seqno == FramesOn(wire[..i], wire[i].stream) {
        assert w[i].seqno == FramesOn(w[..i], w[i].stream);
      }
    }
  }

  // ------------------------------------------------------------------- runs

  /** `restarted`: streams given a fresh counter after frames had been sent on them.
      `skipped`: streams on which a write has failed.  `misused`: a frame went out on one of these. */
  datatype State = State(
    counters: Counters,
    wire: seq<Envelope>,
    restarted: set<Stream>,
    skipped: set<Stream>,
    misused: bool)

  predicate Restarts(s: State, op: Op) {
    match op
    case Register(t, _) => t !in s.counters && FramesOn(s.wire, t) > 0
    case Announce(t) => FramesOn(s.wire, t) > 0
    case Create(t, _) => FramesOn(s.wire, t) > 0
    case _ => false
  }

  function Next(s: State, op: Op): State
    requires Allowed(s.counters, op)
  {
    var restarted := if Restarts(s, op) then s.restarted + {op.stream} else s.restarted;
    State(
      Count(s.counters, op),
      s.wire + Frames(s.counters, op),
      restarted,
      if (op.Send? || op.Create?) && !op.written then s.skipped + {op.stream} else s.skipped,
      s.misused || ((op.Send? || op.Create?) && op.written && op.stream in restarted + s.skipped))
  }

  ghost predicate Reaches(s: State, ops: seq<Op>, t: State)
    decreases |ops|
  {
    if ops == [] then s == t
    else Allowed(s.counters, ops[0]) && Reaches(Next(s, ops[0]), ops[1..], t)
  }

  /** After the handshake: Hello was frame 0 of the host stream. */
  function Connected(host: Stream): State {
    State(map[host := 1], [Envelope(host, 0)], {}, {}, false)
  }

  predicate FromZero(ops: seq<Op>) {
    forall i :: 0 <= i < |ops| ==> (ops[i].Register? ==> ops[i].first == 0)
  }

  predicate AllWritten(ops: seq<Op>) {
    forall i :: 0 <= i < |ops| ==> (ops[i].Send? || ops[i].Create? ==> ops[i].written)
  }

  predicate PumpOnly(ops: seq<Op>) {
    forall i :: 0 <= i < |ops| ==> ops[i].Register? || ops[i].Send?
  }

  /** As long as nothing was misused the counters say what the validator expects. */
  ghost predicate InStep(s: State) {
    !s.misused ==>
      Accepted(s.wire)
      && forall t :: t in s.counters && t !in s.restarted + s.skipped ==> s.counters[t] == FramesOn(s.wire, t)
  }

  /** A restarted counter is behind for good when no write fails. */
  ghost predicate RestartedBehind(s: State) {
    s.skipped == {}
    && (forall t :: t in s.restarted ==> FramesOn(s.wire, t) > 0)
    && (forall t :: t in s.counters && t in s.restarted ==> s.counters[t] < FramesOn(s.wire, t))
    && (s.misused ==> !Accepted(s.wire))
  }

  /** A skipped counter is ahead for good when nothing restarts. */
  ghost predicate SkippedAhead(s: State) {
    s.restarted == {}
    && (forall t :: FramesOn(s.wire, t) > 0 ==> t in s.counters)
    && (forall t :: t in s.counters ==> s.counters[t] >= FramesOn(s.wire, t))
    && (forall t :: t in s.skipped ==> t in s.counters && s.counters[t] > FramesOn(s.wire, t))
    && (s.misused ==> !Accepted(s.wire))
  }

  lemma FramesAppended(s: State, op: Op)
    requires Allowed(s.counters, op)
    ensures Frames(s.counters, op) == [] ==> Next(s, op).wire == s.wire
    ensures Frames(s.counters, op) != [] ==>
      var e := Frames(s.counters, op)[0];
      && Next(s, op).wire == s.wire + [e]
      && (Accepted(s.wire + [e]) <==> Accepted(s.wire) && e.seqno == FramesOn(s.wire, e.stream))
      && forall t :: FramesOn(s.wire + [e], t) == FramesOn(s.wire, t) + if e.stream == t then 1 else 0
  {
    if Frames(s.counters, op) != [] {
      AcceptedOneMore(s.wire, Frames(s.counters, op)[0]);
    }
  }

  lemma StepKeepsInStep(s: State, op: Op)
    requires InStep(s) && Allowed(s.counters, op) && (op.Register? ==> op.first == 0)
    ensures InStep(Next(s, op))
  {
    FramesAppended(s, op);
  }

  lemma StepKeepsRestartedBehind(s: State, op: Op)
    requires InStep(s) && RestartedBehind(s) && Allowed(s.counters, op)
    requires (op.Register? ==> op.first == 0) && (op.Send? || op.Create? ==> op.written)
    ensures RestartedBehind(Next(s, op))
  {
    FramesAppended(s, op);
    if op.Send? || op.Create? {
      SendKeepsRestartedBehind(s, op);
    }
  }

  lemma SendKeepsRestartedBehind(s: State, op: Op)
    requires InStep(s) && RestartedBehind(s) && Allowed(s.counters, op) && (op.Send? || op.Create?) && op.written
    ensures RestartedBehind(Next(s, op))
  {
    FramesAppended(s, op);
  }

  lemma StepKeepsSkippedAhead(s: State, op: Op)
    requires InStep(s) && SkippedAhead(s) && Allowed(s.counters, op)
    requires (op.Register? && op.first == 0) || op.Send?
    ensures SkippedAhead(Next(s, op))
  {
    FramesAppended(s, op);
  }

  /** Whatever happens, a run that never uses a restarted or skipped stream is accepted. */
  lemma {:induction false} UnmisusedRunsAreAccepted(s: State, ops: seq<Op>, t: State)
    requires InStep(s) && Reaches(s, ops, t) && FromZero(ops)
    ensures InStep(t)
    decreases |ops|
  {
    if ops != [] {
      StepKeepsInStep(s, ops[0]);
      UnmisusedRunsAreAccepted(Next(s, ops[0]), ops[1..], t);
    }
  }

  lemma {:induction false} RestartsAreDetected(s: State, ops: seq<Op>, t: State)
    requires InStep(s) && RestartedBehind(s) && Reaches(s, ops, t) && FromZero(ops) && AllWritten(ops)
    ensures RestartedBehind(t)
    decreases |ops|
  {
    if ops != [] {
      StepKeepsInStep(s, ops[0]);
      StepKeepsRestartedBehind(s, ops[0]);
      RestartsAreDetected(Next(s, ops[0]), ops[1..], t);
    }
  }

  lemma {:induction false} SkipsAreDetected(s: State, ops: seq<Op>, t: State)
    requires InStep(s) && SkippedAhead(s) && Reaches(s, ops, t) && FromZero(ops) && PumpOnly(ops)
    ensures SkippedAhead(t)
    decreases |ops|
  {
    if ops != [] {
      StepKeepsInStep(s, ops[0]);
      StepKeepsSkippedAhead(s, ops[0]);
      SkipsAreDetected(Next(s, ops[0]), ops[1..], t);
    }
  }

  lemma ConnectedIsInStep(host: Stream)
    ensures InStep(Connected(host)) && RestartedBehind(Connected(host)) && SkippedAhead(Connected(host))
  {
  }

  /** While every write succeeds, the peer accepts a connection's frames exactly when none was sent
      on a stream that an AgentClosed forgot and a later announcement started again from 0. */
  lemma AcceptedUnlessRestarted(host: Stream, ops: seq<Op>, t: State)
    requires Reaches(Connected(host), ops, t) && FromZero(ops) && AllWritten(ops)
    ensures Accepted(t.wire) <==> !t.misused
  {
    ConnectedIsInStep(host);
    UnmisusedRunsAreAccepted(Connected(host), ops, t);
    RestartsAreDetected(Connected(host), ops, t);
  }

  /** The write pump never restarts a stream: its frames are accepted exactly when nothing is
      written on a stream after a failed write there. */
  lemma PumpAcceptedUnlessSkipped(host: Stream, ops: seq<Op>, t: State)
    requires Reaches(Connected(host), ops, t) && FromZero(ops) && PumpOnly(ops)
    ensures Accepted(t.wire) <==> !t.misused
    ensures t.restarted == {}
  {
    ConnectedIsInStep(host);
    UnmisusedRunsAreAccepted(Connected(host), ops, t);
    SkipsAreDetected(Connected(host), ops, t);
  }

  /** The failing family is real: an announced agent is used, closed, announced again on the same
      stream and used again.  Its second frame repeats number 0.  It takes a server that reuses a
      stream name; this repository's own server puts a fresh identifier into each. */
  lemma ReannouncedStreamIsRejected(host: Stream, agent: string) returns (ops: seq<Op>, t: State)
    requires !BelongsTo(host, agent)
    ensures Reaches(Connected(host), ops, t) && FromZero(ops) && AllWritten(ops) && !Accepted(t.wire)
  {
    var s := "/agent/" + agent + "/1";
    assert BelongsTo(s, agent);
    var h := Envelope(host, 0);
    var once := State(map[host := 1, s := 1], [h, Envelope(s, 0)], {}, {}, false);
    t := State(map[host := 1, s := 1], [h, Envelope(s, 0), Envelope(s, 0)], {s}, {}, true);
    ops := [Announce(s), Send(s, true), Close(agent), Announce(s), Send(s, true)];
    var firstOps := UsedOnce(host, s);
    CloseForgets(once, host, s, agent);
    UsedAgain(host, s);
    ReachesOneMore(Connected(host), firstOps, once, ops[2]);
    ReachesOneMore(Connected(host), firstOps + [ops[2]], once.(counters := map[host := 1]), ops[3]);
    ReachesOneMore(Connected(host), firstOps + [ops[2]] + [ops[3]],
                   once.(counters := map[host := 1, s := 0], restarted := {s}), ops[4]);
    assert firstOps + [ops[2]] + [ops[3]] + [ops[4]] == ops;
    assert t.wire[..2] == [h, Envelope(s, 0)];
    FewFrames(host, s);
    assert t.wire[2].seqno != FramesOn(t.wire[..2], s);
  }

  lemma UsedOnce(host: Stream, s: Stream) returns (ops: seq<Op>)
    requires s != host
    ensures ops == [Announce(s), Send(s, true)]
    ensures Reaches(Connected(host), ops, State(map[host := 1, s := 1], [Envelope(host, 0), Envelope(s, 0)], {}, {}, false))
  {
    ops := [Announce(s), Send(s, true)];
    var s0 := Connected(host);
    var s1 := s0.(counters := map[host := 1, s := 0]);
    FewFrames(host, s);
    assert Next(s0, ops[0]) == s1;
    ReachesOneMore(s0, [], s0, ops[0]);
    ReachesOneMore(s0, [ops[0]], s1, ops[1]);
    assert [] + [ops[0]] == [ops[0]] && [ops[0]] + [ops[1]] == ops;
  }

  lemma CloseForgets(once: State, host: Stream, s: Stream, agent: string)
    requires once.counters == map[host := 1, s := 1] && BelongsTo(s, agent) && !BelongsTo(host, agent)
    ensures Next(once, Close(agent)) == once.(counters := map[host := 1])
  {
  }

  lemma UsedAgain(host: Stream, s: Stream)
    requires s != host
    ensures var closed := State(map[host := 1], [Envelope(host, 0), Envelope(s, 0)], {}, {}, false);
      var announced := closed.(counters := map[host := 1, s := 0], restarted := {s});
      && Allowed(closed.counters, Announce(s)) && Next(closed, Announce(s)) == announced
      && Next(announced, Send(s, true)) ==
         State(map[host := 1, s := 1], [Envelope(host, 0), Envelope(s, 0), Envelope(s, 0)], {s}, {}, true)
  {
    FewFrames(host, s);
  }

  /** The failing family of the pump is real too: a stream whose first write fails goes on with number 1. */
  lemma SkippedStreamIsRejected(host: Stream, s: Stream) returns (ops: seq<Op>, t: State)
    requires s != host
    ensures Reaches(Connected(host), ops, t) && FromZero(ops) && PumpOnly(ops) && !Accepted(t.wire)
  {
    var h := Envelope(host, 0);
    var s0 := Connected(host);
    var s1 := s0.(counters := map[host := 1, s := 0]);
    var s2 := s1.(counters := map[host := 1, s := 1], skipped := {s});
    t := State(map[host := 1, s := 2], [h, Envelope(s, 1)], {}, {s}, true);
    FewFrames(host, s);
    assert Next(s0, Register(s, 0)) == s1;
    assert Next(s1, Send(s, false)) == s2;
    assert Next(s2, Send(s, true)) == t;
    ops := [Register(s, 0), Send(s, false), Send(s, true)];
    ReachesOneMore(s0, [], s0, ops[0]);
    ReachesOneMore(s0, [ops[0]], s1, ops[1]);
    ReachesOneMore(s0, [ops[0], ops[1]], s2, ops[2]);
    assert [] + [ops[0]] == [ops[0]] && [ops[0]] + [ops[1]] == [ops[0], ops[1]] && [ops[0], ops[1]] + [ops[2]] == ops;
    assert t.wire[..1] == [h];
    assert t.wire[1].seqno != FramesOn(t.wire[..1], s);
  }

  lemma FewFrames(host: Stream, s: Stream)
    requires s != host
    ensures FramesOn([Envelope(host, 0)], s) == 0
    ensures FramesOn([Envelope(host, 0), Envelope(s, 0)], s) == 1
  {
  }

  // ------------------------------------------------------ numbering of the pump

  /** Every stream has one starting number and its frames are consecutive from it. */
  ghost predicate Consecutive(s: State, first: map<Stream, nat>) {
    && (forall t :: t in s.counters ==> t in first && s.counters[t] == first[t] + FramesOn(s.wire, t))
    && Numbered(s.wire, first)
    && (forall t :: t !in s.counters ==> FramesOn(s.wire, t) == 0)
  }

  ghost predicate Numbered(wire: seq<Envelope>, first: map<Stream, nat>) {
    forall i :: 0 <= i < |wire| ==>
      wire[i].stream in first && wire[i].seqno == first[wire[i].stream] + FramesOn(wire[..i], wire[i].stream)
  }

  lemma NumberedOneMore(wire: seq<Envelope>, e: Envelope, first: map<Stream, nat>)
    requires Numbered(wire, first) && e.stream in first && e.seqno == first[e.stream] + FramesOn(wire, e.stream)
    ensures Numbered(wire + [e], first)
  {
    var w := wire + [e];
    forall i | 0 <= i < |w|
      ensures w[i].stream in first && w[i].seqno == first[w[i].stream] + FramesOn(w[..i], w[i].stream)
    {
      assert w[..i] == wire[..i];
      if i == |wire| {
        assert wire[..i] == wire;
      }
    }
  }

  lemma RegisterKeepsConsecutive(s: State, op: Op, first: map<Stream, nat>)
    requires Consecutive(s, first) && op.Register?
    ensures Consecutive(Next(s, op), if op.stream !in s.counters then first[op.stream := op.first] else first)
  {
    var t := Next(s, op);
    assert t.wire == s.wire;
    if op.stream !in s.counters {
      forall i | 0 <= i < |s.wire| ensures s.wire[i].stream != op.stream {
        FramesCounted(s.wire, i);
      }
    }
  }

  lemma SendKeepsConsecutive(s: State, op: Op, first: map<Stream, nat>)
    requires Consecutive(s, first) && Allowed(s.counters, op) && op.Send? && op.written
    ensures Consecutive(Next(s, op), first)
  {
    FramesAppended(s, op);
    var e := Frames(s.counters, op)[0];
    NumberedOneMore(s.wire, e, first);
  }

  lemma StepKeepsConsecutive(s: State, op: Op, first: map<Stream, nat>)
    requires Consecutive(s, first) && Allowed(s.counters, op)
    requires op.Register? || (op.Send? && op.written)
    ensures Consecutive(Next(s, op),
              if op.Register? && op.stream !in s.counters then first[op.stream := op.first] else first)
  {
    if op.Register? {
      RegisterKeepsConsecutive(s, op, first);
    } else {
      SendKeepsConsecutive(s, op, first);
    }
  }

  lemma {:induction false} FramesCounted(wire: seq<Envelope>, i: nat)
    requires i < |wire|
    ensures FramesOn(wire, wire[i].stream) > 0
  {
    if i < |wire| - 1 {
      FramesCounted(wire[..|wire| - 1], i);
    }
  }

  /** Through any run of the pump without failed writes, each stream is numbered consecutively from
      where it started; registering it again never moves the start. */
  lemma {:induction false} PumpNumbersConsecutively(s: State, ops: seq<Op>, t: State, first: map<Stream, nat>)
    returns (last: map<Stream, nat>)
    requires Consecutive(s, first) && Reaches(s, ops, t) && PumpOnly(ops) && AllWritten(ops)
    ensures Consecutive(t, last)
    ensures forall u :: u in s.counters ==> u in first && u in last && last[u] == first[u]
    decreases |ops|
  {
    last := first;
    if ops != [] {
      StepKeepsConsecutive(s, ops[0], first);
      var next := if ops[0].Register? && ops[0].stream !in s.counters then first[ops[0].stream := ops[0].first] else first;
      last := PumpNumbersConsecutively(Next(s, ops[0]), ops[1..], t, next);
    }
  }

  // --------------------------------------------------------- the write pump

  /** The pump answers a send on an unregistered stream with an error and goes on. */
  function PumpAll(m: Counters, wire: seq<Envelope>, requests: seq<Op>): (Counters, seq<Envelope>)
  {
    if requests == [] then (m, wire)
    else
      var (n, w) := PumpAll(m, wire, requests[..|requests| - 1]);
      var op := requests[|requests| - 1];
      if Allowed(n, op) then (Count(n, op), w + Frames(n, op)) else (n, w)
  }

  class WritePump {
    var outgoingSeq: Counters
    var wire: seq<Envelope>

    constructor (host: Stream)
      ensures outgoingSeq == Connected(host).counters && wire == Connected(host).wire
    {
      outgoingSeq := map[host := 1];
      wire := [Envelope(host, 0)];
    }

    method Run(requests: seq<Op>) returns (results: seq<bool>)
      requires PumpOnly(requests)
      modifies this
      ensures (outgoingSeq, wire) == PumpAll(old(outgoingSeq), old(wire), requests)
      ensures |results| == |requests|
      ensures forall i :: 0 <= i < |requests| && requests[i].Send? ==>
        (results[i] <==> requests[i].written
                         && requests[i].stream in PumpAll(old(outgoingSeq), old(wire), requests[..i]).0)
    {
      results := [];
      for i := 0 to |requests|
        invariant (outgoingSeq, wire) == PumpAll(old(outgoingSeq), old(wire), requests[..i])
        invariant |results| == i
        invariant forall j :: 0 <= j < i && requests[j].Send? ==>
          (results[j] <==> requests[j].written
                           && requests[j].stream in PumpAll(old(outgoingSeq), old(wire), requests[..j]).0)
      {
        assert requests[..i + 1][..i] == requests[..i];
        var op := requests[i];
        ghost var m, w := outgoingSeq, wire;
        var ok := true;
        if op.Register? {
          if op.stream !in outgoingSeq {
            outgoingSeq := outgoingSeq[op.stream := op.first];
          }
        } else if op.stream in outgoingSeq {
          var n := outgoingSeq[op.stream];
          outgoingSeq := outgoingSeq[op.stream := n + 1];
          ok := op.written;
          if ok {
            wire := wire + [Envelope(op.stream, n)];
          }
        } else {
          ok := false;
        }
        assert w + [] == w;
        assert (outgoingSeq, wire) == if Allowed(m, op) then (Count(m, op), w + Frames(m, op)) else (m, w);
        results := results + [ok];
      }
      assert requests[..|requests|] == requests;
    }
  }

  /** What the pump does is a run of the machine: the requests it could perform, in order. */
  lemma {:induction false} PumpIsARun(s: State, requests: seq<Op>) returns (ops: seq<Op>, t: State)
    requires PumpOnly(requests)
    ensures Reaches(s, ops, t) && PumpOnly(ops) && (t.counters, t.wire) == PumpAll(s.counters, s.wire, requests)
    ensures FromZero(requests) ==> FromZero(ops)
  {
    if requests == [] {
      ops, t := [], s;
    } else {
      var n := |requests| - 1;
      ops, t := PumpIsARun(s, requests[..n]);
      if Allowed(t.counters, requests[n]) {
        ReachesOneMore(s, ops, t, requests[n]);
        ops, t := ops + [requests[n]], Next(t, requests[n]);
      }
    }
  }

  lemma {:induction false} ReachesOneMore(s: State, ops: seq<Op>, t: State, op: Op)
    requires Reaches(s, ops, t) && Allowed(t.counters, op)
    ensures Reaches(s, ops + [op], Next(t, op))
    decreases |ops|
  {
    if ops == [] {
      assert [op][1..] == [];
    } else {
      ReachesOneMore(Next(s, ops[0]), ops[1..], t, op);
      assert (ops + [op])[1..] == ops[1..] + [op];
    }
  }

  // --------------------------------------------------------- the connection

  /** `/host/<connection>` with a nonempty connection that has no further segment. */
  predicate IsHostRoot(s: Stream) {
    "/host/" <= s && |s| > 6 && '/' !in s[6..]
  }

  predicate OneHostRoot(m: Counters, host: Stream) {
    host in m && IsHostRoot(host) && forall s :: s in m && IsHostRoot(s) ==> s == host
  }

  lemma OtherPrefixIsNoHostRoot(prefix: string, rest: string)
    requires |prefix| >= 2 && prefix[0] == '/' && prefix[1] != 'h'
    ensures !IsHostRoot(prefix + rest)
  {
    assert (prefix + rest)[1] == prefix[1] && "/host/"[1] == 'h';
  }

  lemma SpawnChildIsNoHostRoot(host: Stream, operation: string)
    requires IsHostRoot(host)
    ensures !IsHostRoot(host + "/spawn/" + operation)
  {
    var s := host + "/spawn/" + operation;
    assert s[|host|] == '/';
    assert s[6..][|host| - 6] == '/';
  }

  lemma HostRootBelongsToNoAgent(host: Stream, agent: string)
    requires IsHostRoot(host)
    ensures !BelongsTo(host, agent)
  {
    assert ("/agent/" + agent + "/")[1] == 'a' && "/host/"[1] == 'h';
  }

  /** The stream is registered at 0 unless it has a counter, and one frame is sent on it. */
  predicate ProjectPayload(m: Counters, wire: seq<Envelope>, s: Stream, written: bool, n: Counters, out: seq<Envelope>) {
    var registered := Count(m, Register(s, 0));
    n == Count(registered, Send(s, written)) && out == wire + Frames(registered, Send(s, written))
  }

  /** Payloads on project streams are steps of the machine that never restart a counter. */
  lemma ProjectPayloadIsARun(s: State, project: string, written: bool, n: Counters, out: seq<Envelope>)
    returns (ops: seq<Op>, t: State)
    requires ProjectPayload(s.counters, s.wire, "/project/" + project, written, n, out)
    ensures Reaches(s, ops, t) && PumpOnly(ops) && FromZero(ops) && t.counters == n && t.wire == out
  {
    var stream := "/project/" + project;
    ops := [Register(stream, 0), Send(stream, written)];
    var m := Next(s, ops[0]);
    t := Next(m, ops[1]);
    ReachesOneMore(s, [], s, ops[0]);
    ReachesOneMore(s, [ops[0]], m, ops[1]);
    assert [] + [ops[0]] == [ops[0]] && [ops[0]] + [ops[1]] == ops;
  }

  class Connection {
    var outgoingSeq: Counters
    var wire: seq<Envelope>
    ghost const host: Stream

    ghost predicate Valid()
      reads this
    {
      OneHostRoot(outgoingSeq, host)
    }

    constructor (h: Stream)
      requires IsHostRoot(h)
      ensures Valid() && host == h && outgoingSeq == Connected(h).counters && wire == Connected(h).wire
    {
      outgoingSeq, wire, host := map[h := 1], [Envelope(h, 0)], h;
    }

    /** Looks for the one host root among the keys; a second one would be a panic. */
    method HostStream() returns (s: Stream)
      requires Valid()
      ensures s == host
    {
      var keys := outgoingSeq.Keys;
      assert host in keys;
      while true
        invariant host in keys && keys <= outgoingSeq.Keys
        decreases keys
      {
        s :| s in keys;
        if IsHostRoot(s) {
          return;
        }
        keys := keys - {s};
      }
    }

    method SendOn(s: Stream, written: bool) returns (ok: bool)
      modifies this
      ensures ok <==> s in old(outgoingSeq) && written
      ensures s in old(outgoingSeq) ==>
        outgoingSeq == Count(old(outgoingSeq), Send(s, written))
        && wire == old(wire) + Frames(old(outgoingSeq), Send(s, written))
      ensures s !in old(outgoingSeq) ==> outgoingSeq == old(outgoingSeq) && wire == old(wire)
    {
      if s !in outgoingSeq {
        return false;
      }
      var n := outgoingSeq[s];
      outgoingSeq := outgoingSeq[s := n + 1];
      if written {
        wire := wire + [Envelope(s, n)];
      }
      return written;
    }

    method SendHostPayload(written: bool) returns (ok: bool)
      requires Valid()
      modifies this
      ensures Valid() && ok == written
      ensures outgoingSeq == Count(old(outgoingSeq), Send(host, written))
      ensures wire == old(wire) + Frames(old(outgoingSeq), Send(host, written))
    {
      var s := HostStream();
      ok := SendOn(s, written);
    }

    /** Project and review streams get their counter on first use. */
    method SendProjectPayload(project: string, written: bool) returns (ok: bool)
      requires Valid()
      modifies this
      ensures Valid() && ok == written
      ensures ProjectPayload(old(outgoingSeq), old(wire), "/project/" + project, written, outgoingSeq, wire)
    {
      var s := "/project/" + project;
      OtherPrefixIsNoHostRoot("/project/", project);
      if s !in outgoingSeq {
        outgoingSeq := outgoingSeq[s := 0];
      }
      ok := SendOn(s, written);
    }

    method SpawnOnCreationStream(operation: string, written: bool) returns (s: Stream, ok: bool)
      requires Valid()
      modifies this
      ensures Valid() && ok == written && s == host + "/spawn/" + operation
      ensures outgoingSeq == Count(old(outgoingSeq), Create(s, written))
      ensures wire == old(wire) + Frames(old(outgoingSeq), Create(s, written))
    {
      var h := HostStream();
      s := h + "/spawn/" + operation;
      SpawnChildIsNoHostRoot(h, operation);
      outgoingSeq := outgoingSeq[s := 1];
      ok := written;
      if written {
        wire := wire + [Envelope(s, 0)];
      }
    }

    /** The browse stream is named by the caller: one host root remains exactly when it names none. */
    method HostBrowseStart(browse: Stream, written: bool) returns (ok: bool)
      requires Valid() && browse !in outgoingSeq
      modifies this
      ensures ok == written
      ensures outgoingSeq == var sent := Count(old(outgoingSeq), Send(host, written));
                             if written then Count(sent, Register(browse, 0)) else sent
      ensures wire == old(wire) + Frames(old(outgoingSeq), Send(host, written))
      ensures Valid() <==> !written || !IsHostRoot(browse)
    {
      ok := SendHostPayload(written);
      if ok {
        outgoingSeq := outgoingSeq[browse := 0];
        assert IsHostRoot(browse) ==> browse in outgoingSeq && browse != host;
      }
    }

    /** NewAgent, bootstrapped agents and NewTerminal; the stream path has been parsed. */
    method OnAnnounced(s: Stream)
      requires Valid() && s !in outgoingSeq
      requires "/agent/" <= s || "/terminal/" <= s
      modifies this`outgoingSeq
      ensures Valid() && outgoingSeq == Count(old(outgoingSeq), Announce(s))
    {
      if "/agent/" <= s {
        OtherPrefixIsNoHostRoot("/agent/", s[7..]);
        assert s == "/agent/" + s[7..];
      } else {
        OtherPrefixIsNoHostRoot("/terminal/", s[10..]);
        assert s == "/terminal/" + s[10..];
      }
      outgoingSeq := outgoingSeq[s := 0];
    }

    method OnAgentClosed(agent: string)
      requires Valid()
      modifies this`outgoingSeq
      ensures Valid() && outgoingSeq == Count(old(outgoingSeq), Close(agent))
    {
      var left := outgoingSeq.Keys;
      while left != {}
        invariant left <= old(outgoingSeq).Keys
        invariant outgoingSeq == map s | s in old(outgoingSeq) && (s in left || !BelongsTo(s, agent)) :: old(outgoingSeq)[s]
      {
        var s :| s in left;
        left := left - {s};
        if BelongsTo(s, agent) {
          outgoingSeq := outgoingSeq - {s};
        }
      }
      HostRootBelongsToNoAgent(host, agent);
    }
  }
}
