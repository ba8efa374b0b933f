// The client's check of server voice frames: at most one session is active, and
// what reaches the application is a well-formed sequence of sessions.
module VoiceSession {

  datatype Option<+T> = None | Some(value: T)

  const U64: int := 0x1_0000_0000_0000_0000
  type u64 = x: int | 0 <= x < 0x1_0000_0000_0000_0000

  datatype Mode = Conversation | Dictation
  datatype Speaker = User | Assistant | Progress
  datatype Phase = Starting | Listening | AgentWorking | Speaking | Interrupting | Ending | Ended

  const MAX_PACKETS := 3
  const MAX_AUDIO_BYTES := 8 * 1024

  datatype Payload =
    | Capabilities(valid: bool)
    | Accepted(session: string, generation: u64, mode: Mode, requestValid: bool)
    | Audio(session: string, generation: u64, output: bool, first: u64, timestamp: u64, lengths: seq<nat>)
    | Transcript(session: string, generation: u64, speaker: Speaker, hasMessage: bool)
    | PhaseChange(session: string, generation: u64, phase: Phase)
    | VoiceOutput(session: string, generation: u64)
    | Stop(session: string, generation: u64)
    | SessionError(session: string, generation: u64, fatal: bool)
    | PreSessionError(fatal: bool)
    | Unparsable               // a voice kind whose payload does not parse
    | OtherKind                // any other frame kind

  datatype Frame = Frame(stream: string, bodyLength: nat, payload: Payload)

  datatype Session = Session(id: string, generation: u64, mode: Mode, next: u64)

  datatype State = State(active: Option<Session>, lastGeneration: u64)

  const Idle := State(None, 0)

  datatype Outcome = NotVoice | Rejected | Event(payload: Payload)

  function Sum(xs: seq<nat>): nat {
    if xs == [] then 0 else Sum(xs[..|xs| - 1]) + xs[|xs| - 1]
  }

  method Total(xs: seq<nat>) returns (n: nat)
    ensures n == Sum(xs)
  {
    n := 0;
    for i := 0 to |xs|
      invariant n == Sum(xs[..i])
    {
      assert xs[..i + 1][..i] == xs[..i];
      n := n + xs[i];
    }
    assert xs[..|xs|] == xs;
  }

  predicate ValidBody(lengths: seq<nat>, bodyLength: nat) {
    1 <= |lengths| <= MAX_PACKETS && bodyLength <= MAX_AUDIO_BYTES && Sum(lengths) == bodyLength
  }

  function SaturatingMul(a: u64, b: u64): u64 {
    if a * b < U64 then a * b else U64 - 1
  }

  /** Addition as the release build performs it. */
  function WrappingAdd(a: u64, b: nat): u64 {
    (a + b) % U64
  }

  predicate IsVoice(f: Frame) {
    "/voice" <= f.stream || !f.payload.OtherKind?
  }

  predicate InSession(p: Payload) {
    p.Audio? || p.Transcript? || p.PhaseChange? || p.VoiceOutput? || p.Stop? || p.SessionError?
  }

  function StreamOf(p: Payload): string
    requires InSession(p)
  {
    "/voice/" + p.session + if p.Audio? then "/audio" else ""
  }

  /** The session frame names the active session and came on that session's stream. */
  predicate ForActive(s: State, f: Frame)
    requires InSession(f.payload)
  {
    s.active.Some? && s.active.value.id == f.payload.session
    && s.active.value.generation == f.payload.generation && f.stream == StreamOf(f.payload)
  }

  /** What a dictation session may receive. */
  predicate DictationAllows(p: Payload) {
    !p.Audio? && !p.VoiceOutput?
    && (p.Transcript? ==> p.speaker == User && !p.hasMessage)
    && (p.PhaseChange? ==> p.phase in {Starting, Listening, Ending, Ended})
  }

  predicate Accepts(s: State, hostStream: string, f: Frame) {
    var p := f.payload;
    match p
    case Capabilities(valid) => f.bodyLength == 0 && f.stream == hostStream && valid
    case Accepted(session, generation, _, requestValid) =>
      f.bodyLength == 0 && f.stream == "/voice" && session != "" && generation > s.lastGeneration && requestValid
    case Audio(_, _, output, first, timestamp, lengths) =>
      ValidBody(lengths, f.bodyLength) && output && timestamp == SaturatingMul(first, 960)
      && ForActive(s, f) && s.active.value.mode != Dictation && first >= s.active.value.next
    case PreSessionError(_) => f.bodyLength == 0 && f.stream == "/voice"
    case Unparsable => false
    case OtherKind => false
    case _ =>
      f.bodyLength == 0 && ForActive(s, f) && (s.active.value.mode == Dictation ==> DictationAllows(p))
  }

  predicate Ends(p: Payload) {
    p.Stop? || (p.SessionError? && p.fatal)
  }

  function After(s: State, p: Payload): State
    requires p.Audio? ==> s.active.Some?
  {
    match p
    case Accepted(session, generation, mode, _) => State(Some(Session(session, generation, mode, 0)), generation)
    case Audio(_, _, _, first, _, lengths) =>
      s.(active := Some(s.active.value.(next := WrappingAdd(first, |lengths|))))
    case _ => if Ends(p) then s.(active := None) else s
  }

  class ServerVoiceState {
    var active: Option<Session>
    var lastGeneration: u64

    ghost function Contents(): State
      reads this
    {
      State(active, lastGeneration)
    }

    constructor ()
      ensures Contents() == Idle
    {
      active, lastGeneration := None, 0;
    }

    method RequireActive(f: Frame) returns (ok: bool)
      requires InSession(f.payload)
      ensures ok <==> ForActive(Contents(), f)
    {
      if active.None? {
        return false;
      }
      return active.value.id == f.payload.session && active.value.generation == f.payload.generation
             && f.stream == StreamOf(f.payload);
    }

    /** A frame is accepted or rejected as a whole; a rejected one changes nothing. */
    method Accept(hostStream: string, f: Frame) returns (r: Outcome)
      modifies this
      ensures r.NotVoice? <==> !("/voice" <= f.stream) && f.payload.OtherKind?
      ensures r.Event? <==> IsVoice(f) && Accepts(old(Contents()), hostStream, f)
      ensures r.Event? ==> r.payload == f.payload && Contents() == After(old(Contents()), f.payload)
      ensures !r.Event? ==> Contents() == old(Contents())
    {
      if !IsVoice(f) {
        return NotVoice;
      }
      var p := f.payload;
      if p.Audio? {
        r := AcceptAudio(f);
        return;
      }
      if p.Unparsable? || p.OtherKind? || f.bodyLength != 0 {
        return Rejected;
      }
      if p.Capabilities? {
        if f.stream != hostStream || !p.valid {
          return Rejected;
        }
        return Event(p);
      }
      if p.Accepted? {
        if f.stream != "/voice" || p.session == "" || p.generation <= lastGeneration || !p.requestValid {
          return Rejected;
        }
        lastGeneration := p.generation;
        active := Some(Session(p.session, p.generation, p.mode, 0));
        return Event(p);
      }
      if p.PreSessionError? {
        if f.stream != "/voice" {
          return Rejected;
        }
        return Event(p);
      }
      var ok := RequireActive(f);
      if !ok || (active.value.mode == Dictation && !DictationAllows(p)) {
        return Rejected;
      }
      if Ends(p) {
        active := None;
      }
      return Event(p);
    }

    method AcceptAudio(f: Frame) returns (r: Outcome)
      requires f.payload.Audio?
      modifies this`active
      ensures r.Event? || r.Rejected?
      ensures r.Event? <==> Accepts(old(Contents()), "", f)
      ensures r.Event? ==> r.payload == f.payload && Contents() == After(old(Contents()), f.payload)
      ensures !r.Event? ==> Contents() == old(Contents())
    {
      var p := f.payload;
      var total := Total(p.lengths);
      if |p.lengths| == 0 || |p.lengths| > MAX_PACKETS || f.bodyLength > MAX_AUDIO_BYTES || total != f.bodyLength {
        return Rejected;
      }
      if !p.output || p.timestamp != SaturatingMul(p.first, 960) {
        return Rejected;
      }
      var ok := RequireActive(f);
      if !ok || active.value.mode == Dictation || p.first < active.value.next {
        return Rejected;
      }
      active := Some(active.value.(next := WrappingAdd(p.first, |p.lengths|)));
      return Event(p);
    }
  }

  // -------------------------------------------------------------- whole runs

  /** The state after `frames` and the events the application saw. */
  function Run(hostStream: string, frames: seq<Frame>): (State, seq<Frame>) {
    if frames == [] then (Idle, [])
    else
      var (s, seen) := Run(hostStream, frames[..|frames| - 1]);
      var f := frames[|frames| - 1];
      if IsVoice(f) && Accepts(s, hostStream, f) then (After(s, f.payload), seen + [f]) else (s, seen)
  }

  /** `i` is the acceptance of the session that is open just before event `j`. */
  predicate OpenedBy(seen: seq<Frame>, i: int, j: int)
    requires j <= |seen|
  {
    0 <= i < j && seen[i].payload.Accepted?
    && forall k :: i < k < j ==> !seen[k].payload.Accepted? && !Ends(seen[k].payload)
  }

  predicate SameSession(a: Payload, p: Payload)
    requires a.Accepted? && InSession(p)
  {
    a.session == p.session && a.generation == p.generation
  }

  /** Event `j` belongs to the session open at that point and keeps that session's rules. */
  ghost predicate InOpenSession(seen: seq<Frame>, j: int)
    requires 0 <= j < |seen|
  {
    InSession(seen[j].payload) ==>
      exists i :: OpenedBy(seen, i, j) && SameSession(seen[i].payload, seen[j].payload)
        && (seen[i].payload.mode == Dictation ==> DictationAllows(seen[j].payload))
        && seen[j].stream == StreamOf(seen[j].payload)
  }

  /** Where the packets of an audio payload end, over the integers. */
  function AudioEnd(p: Payload): int
    requires p.Audio?
  {
    p.first + |p.lengths|
  }

  ghost predicate NoWrap(seen: seq<Frame>) {
    forall i :: 0 <= i < |seen| && seen[i].payload.Audio? ==> AudioEnd(seen[i].payload) < U64
  }

  predicate Describes(a: Session, p: Payload) {
    p.Accepted? && p.session == a.id && p.generation == a.generation && p.mode == a.mode
  }

  /** State and history agree. */
  ghost predicate Agrees(s: State, seen: seq<Frame>) {
    && (forall i :: 0 <= i < |seen| && seen[i].payload.Accepted? ==> seen[i].payload.generation <= s.lastGeneration)
    && (forall i, j :: 0 <= i < j < |seen| && seen[i].payload.Accepted? && seen[j].payload.Accepted? ==>
         seen[i].payload.generation < seen[j].payload.generation)
    && (forall j :: 0 <= j < |seen| ==> InOpenSession(seen, j))
    && (s.active.Some? ==> exists i :: OpenedBy(seen, i, |seen|) && Describes(s.active.value, seen[i].payload))
    && (s.active.None? ==> forall i :: !OpenedBy(seen, i, |seen|))
    && (forall i :: 0 <= i < |seen| && InSession(seen[i].payload) ==> seen[i].payload.generation <= s.lastGeneration)
  }

  predicate AudioOf(p: Payload, generation: u64) {
    p.Audio? && p.generation == generation
  }

  ghost predicate AudioOrdered(s: State, seen: seq<Frame>) {
    && RangesOrdered(seen)
    && (s.active.Some? ==>
          forall i :: 0 <= i < |seen| && AudioOf(seen[i].payload, s.active.value.generation)
            ==> AudioEnd(seen[i].payload) <= s.active.value.next)
  }

  /** Within a session the packet ranges are in order and do not overlap. */
  ghost predicate RangesOrdered(seen: seq<Frame>) {
    forall i, j :: 0 <= i < j < |seen| && seen[i].payload.Audio? && AudioOf(seen[j].payload, seen[i].payload.generation)
      ==> AudioEnd(seen[i].payload) <= seen[j].payload.first
  }

  lemma OpenedByStable(seen: seq<Frame>, f: Frame, i: int, j: int)
    requires j <= |seen|
    ensures OpenedBy(seen + [f], i, j) <==> OpenedBy(seen, i, j)
  {
    if OpenedBy(seen + [f], i, j) {
      forall k | i < k < j ensures !seen[k].payload.Accepted? && !Ends(seen[k].payload) {
        assert (seen + [f])[k] == seen[k];
      }
    }
  }

  lemma OpenedByLast(seen: seq<Frame>, f: Frame, i: int)
    ensures OpenedBy(seen + [f], i, |seen| + 1) <==>
      if f.payload.Accepted? then i == |seen| else OpenedBy(seen, i, |seen|) && !Ends(f.payload)
  {
    var w := seen + [f];
    assert w[|seen|] == f;
    if OpenedBy(w, i, |w|) && i < |seen| {
      OpenedByStable(seen, f, i, |seen|);
    }
  }

  lemma OldEventsStay(seen: seq<Frame>, f: Frame, j: int)
    requires 0 <= j < |seen| && InOpenSession(seen, j)
    ensures InOpenSession(seen + [f], j)
  {
    assert (seen + [f])[j] == seen[j];
    if InSession(seen[j].payload) {
      var i :| OpenedBy(seen, i, j) && SameSession(seen[i].payload, seen[j].payload)
        && (seen[i].payload.mode == Dictation ==> DictationAllows(seen[j].payload))
        && seen[j].stream == StreamOf(seen[j].payload);
      OpenedByStable(seen, f, i, j);
    }
  }

  lemma NewEventIsInSession(s: State, seen: seq<Frame>, hostStream: string, f: Frame)
    requires Agrees(s, seen) && Accepts(s, hostStream, f)
    ensures InOpenSession(seen + [f], |seen|)
  {
    if InSession(f.payload) {
      var i :| OpenedBy(seen, i, |seen|) && Describes(s.active.value, seen[i].payload);
      OpenedByStable(seen, f, i, |seen|);
    }
  }

  lemma StepAgrees(s: State, seen: seq<Frame>, hostStream: string, f: Frame)
    requires Agrees(s, seen) && Accepts(s, hostStream, f)
    ensures Agrees(After(s, f.payload), seen + [f])
  {
    var w := seen + [f];
    forall j | 0 <= j < |w| ensures InOpenSession(w, j) {
      if j < |seen| {
        OldEventsStay(seen, f, j);
      } else {
        NewEventIsInSession(s, seen, hostStream, f);
      }
    }
    ActiveStillDescribed(s, seen, hostStream, f);
  }

  lemma ActiveStillDescribed(s: State, seen: seq<Frame>, hostStream: string, f: Frame)
    requires Agrees(s, seen) && Accepts(s, hostStream, f)
    ensures var t, w := After(s, f.payload), seen + [f];
      && (t.active.Some? ==> exists i :: OpenedBy(w, i, |w|) && Describes(t.active.value, w[i].payload))
      && (t.active.None? ==> forall i :: !OpenedBy(w, i, |w|))
  {
    var t, w := After(s, f.payload), seen + [f];
    if f.payload.Accepted? {
      assert OpenedBy(w, |seen|, |w|) && Describes(t.active.value, w[|seen|].payload);
    } else if t.active.Some? {
      var i :| OpenedBy(seen, i, |seen|) && Describes(s.active.value, seen[i].payload);
      OpenedByLast(seen, f, i);
      assert OpenedBy(w, i, |w|) && Describes(t.active.value, w[i].payload);
    } else {
      forall i: int ensures !OpenedBy(w, i, |w|) {
        OpenedByLast(seen, f, i);
      }
    }
  }

  lemma StepKeepsAudioOrdered(s: State, seen: seq<Frame>, hostStream: string, f: Frame)
    requires Agrees(s, seen) && AudioOrdered(s, seen) && Accepts(s, hostStream, f)
    requires f.payload.Audio? ==> AudioEnd(f.payload) < U64
    ensures AudioOrdered(After(s, f.payload), seen + [f])
  {
  }

  lemma {:induction false} RunAgrees(hostStream: string, frames: seq<Frame>)
    ensures var (s, seen) := Run(hostStream, frames);
            Agrees(s, seen) && (NoWrap(seen) ==> AudioOrdered(s, seen))
  {
    if frames != [] {
      RunAgrees(hostStream, frames[..|frames| - 1]);
      var (s, seen) := Run(hostStream, frames[..|frames| - 1]);
      var f := frames[|frames| - 1];
      if IsVoice(f) && Accepts(s, hostStream, f) {
        StepAgrees(s, seen, hostStream, f);
        if NoWrap(seen + [f]) {
          assert (seen + [f])[|seen|] == f;
          assert forall i :: 0 <= i < |seen| ==> (seen + [f])[i] == seen[i];
          StepKeepsAudioOrdered(s, seen, hostStream, f);
        }
      }
    }
  }

  /** Accepted generations strictly increase over any sequence of frames. */
  lemma GenerationsIncrease(hostStream: string, frames: seq<Frame>, i: int, j: int)
    requires var seen := Run(hostStream, frames).1;
             0 <= i < j < |seen| && seen[i].payload.Accepted? && seen[j].payload.Accepted?
    ensures var seen := Run(hostStream, frames).1;
            seen[i].payload.generation < seen[j].payload.generation
  {
    RunAgrees(hostStream, frames);
  }

  /** Each session event follows the acceptance of its own session with no other acceptance, stop or
      fatal error of a session in between, and a dictation session sees only what dictation allows. */
  lemma EventsBelongToTheOpenSession(hostStream: string, frames: seq<Frame>, j: int) returns (i: int)
    requires 0 <= j < |Run(hostStream, frames).1| && InSession(Run(hostStream, frames).1[j].payload)
    ensures var seen := Run(hostStream, frames).1;
            && OpenedBy(seen, i, j) && SameSession(seen[i].payload, seen[j].payload)
            && (seen[i].payload.mode == Dictation ==> DictationAllows(seen[j].payload))
            && seen[j].stream == StreamOf(seen[j].payload)
  {
    RunAgrees(hostStream, frames);
    var seen := Run(hostStream, frames).1;
    assert InOpenSession(seen, j);
    i :| OpenedBy(seen, i, j) && SameSession(seen[i].payload, seen[j].payload)
      && (seen[i].payload.mode == Dictation ==> DictationAllows(seen[j].payload))
      && seen[j].stream == StreamOf(seen[j].payload);
  }

  /** The acceptance at `i` opened the session that is still open after `seen`, and it is the frame's. */
  predicate BelongsTo(seen: seq<Frame>, i: int, f: Frame)
    requires InSession(f.payload)
  {
    OpenedBy(seen, i, |seen|) && SameSession(seen[i].payload, f.payload)
  }

  /** The state remembers exactly what the history says: after any frames a session frame is taken for
      the active session if and only if its session and generation are those of an accepted opening
      with no other opening, stop or fatal error since, and it came on that session's stream. */
  lemma CurrentIffOpened(hostStream: string, frames: seq<Frame>, f: Frame)
    requires InSession(f.payload)
    ensures var (s, seen) := Run(hostStream, frames);
      ForActive(s, f) <==> f.stream == StreamOf(f.payload) && exists i :: BelongsTo(seen, i, f)
  {
    RunAgrees(hostStream, frames);
    var (s, seen) := Run(hostStream, frames);
    if s.active.Some? {
      var i :| OpenedBy(seen, i, |seen|) && Describes(s.active.value, seen[i].payload);
      assert ForActive(s, f) && f.stream == StreamOf(f.payload) ==> BelongsTo(seen, i, f);
      forall j | BelongsTo(seen, j, f) ensures j == i {
        LastOpeningIsUnique(seen, i, j);
      }
    }
  }

  // ------------------------------------------------- acceptance from history

  /** Event `i` opened this session, and nothing since has opened or ended one. */
  predicate StillOpen(seen: seq<Frame>, i: int, session: string, generation: u64) {
    && 0 <= i < |seen| && seen[i].payload.Accepted?
    && seen[i].payload.session == session && seen[i].payload.generation == generation
    && forall k :: i < k < |seen| ==>
         !seen[k].payload.Accepted? && !seen[k].payload.Stop? && !(seen[k].payload.SessionError? && seen[k].payload.fatal)
  }

  ghost predicate OpenIn(seen: seq<Frame>, mode: Mode, session: string, generation: u64) {
    exists i :: StillOpen(seen, i, session, generation) && seen[i].payload.mode == mode
  }

  ghost predicate Open(seen: seq<Frame>, session: string, generation: u64) {
    OpenIn(seen, Conversation, session, generation) || OpenIn(seen, Dictation, session, generation)
  }

  /** Event `k` is the last audio after event `i`. */
  predicate LastAudio(seen: seq<Frame>, i: int, k: int) {
    0 <= i < k < |seen| && seen[k].payload.Audio? && forall j :: k < j < |seen| ==> !seen[j].payload.Audio?
  }

  predicate NoAudioSince(seen: seq<Frame>, i: int) {
    forall k :: 0 <= i < k < |seen| ==> !seen[k].payload.Audio?
  }

  /** `first` is at or after the end of the last audio since `i`, as 64 bits hold that end. */
  ghost predicate Follows(seen: seq<Frame>, i: int, first: u64) {
    forall k :: LastAudio(seen, i, k) ==> AudioEnd(seen[k].payload) % U64 <= first
  }

  /** What a frame must be to reach the application after the events `seen`, kind by kind. */
  ghost predicate Deserves(seen: seq<Frame>, hostStream: string, f: Frame) {
    match f.payload
    case Capabilities(valid) => f.bodyLength == 0 && f.stream == hostStream && valid
    case Accepted(session, generation, _, requestValid) =>
      && f.bodyLength == 0 && f.stream == "/voice" && session != "" && requestValid && generation > 0
      && forall i :: 0 <= i < |seen| && seen[i].payload.Accepted? ==> seen[i].payload.generation < generation
    case Audio(session, generation, output, first, timestamp, lengths) =>
      && output && 1 <= |lengths| <= 3 && f.bodyLength <= 8192 && f.bodyLength == Sum(lengths)
      && timestamp == (if 960 * first < U64 then 960 * first else U64 - 1)
      && f.stream == "/voice/" + session + "/audio"
      && exists i :: StillOpen(seen, i, session, generation) && seen[i].payload.mode == Conversation && Follows(seen, i, first)
    case Transcript(session, generation, speaker, hasMessage) =>
      && f.bodyLength == 0 && f.stream == "/voice/" + session
      && (OpenIn(seen, Conversation, session, generation)
          || (speaker == User && !hasMessage && OpenIn(seen, Dictation, session, generation)))
    case PhaseChange(session, generation, phase) =>
      && f.bodyLength == 0 && f.stream == "/voice/" + session
      && (OpenIn(seen, Conversation, session, generation)
          || (phase != AgentWorking && phase != Speaking && phase != Interrupting
              && OpenIn(seen, Dictation, session, generation)))
    case VoiceOutput(session, generation) =>
      f.bodyLength == 0 && f.stream == "/voice/" + session && OpenIn(seen, Conversation, session, generation)
    case Stop(session, generation) =>
      f.bodyLength == 0 && f.stream == "/voice/" + session && Open(seen, session, generation)
    case SessionError(session, generation, _) =>
      f.bodyLength == 0 && f.stream == "/voice/" + session && Open(seen, session, generation)
    case PreSessionError(_) => f.bodyLength == 0 && f.stream == "/voice"
    case Unparsable => false
    case OtherKind => false
  }

  /** The newest generation and the number expected next are what the events say. */
  ghost predicate Remembers(s: State, seen: seq<Frame>) {
    && (s.lastGeneration == 0 || exists i :: 0 <= i < |seen| && seen[i].payload.Accepted? && seen[i].payload.generation == s.lastGeneration)
    && (s.active.Some? ==> forall i :: OpenedBy(seen, i, |seen|) ==> ExpectsNext(seen, i, s.active.value.next))
  }

  ghost predicate ExpectsNext(seen: seq<Frame>, i: int, next: u64) {
    && (forall k :: LastAudio(seen, i, k) ==> next == AudioEnd(seen[k].payload) % U64)
    && (NoAudioSince(seen, i) ==> next == 0)
  }

  lemma {:induction false} RunRemembers(hostStream: string, frames: seq<Frame>)
    ensures var (s, seen) := Run(hostStream, frames); Remembers(s, seen)
  {
    if frames != [] {
      RunRemembers(hostStream, frames[..|frames| - 1]);
      RunAgrees(hostStream, frames[..|frames| - 1]);
      var (s, seen) := Run(hostStream, frames[..|frames| - 1]);
      var f := frames[|frames| - 1];
      if IsVoice(f) && Accepts(s, hostStream, f) {
        GenerationRemembered(s, seen, hostStream, f);
        if After(s, f.payload).active.Some? {
          ExpectationRemembered(s, seen, hostStream, f);
        }
      }
    }
  }

  lemma ExpectationRemembered(s: State, seen: seq<Frame>, hostStream: string, f: Frame)
    requires Remembers(s, seen) && Accepts(s, hostStream, f) && After(s, f.payload).active.Some?
    ensures forall i :: OpenedBy(seen + [f], i, |seen| + 1) ==> ExpectsNext(seen + [f], i, After(s, f.payload).active.value.next)
  {
    var next := if s.active.Some? then s.active.value.next else 0;
    AfterExpects(s, f.payload);
    forall i | OpenedBy(seen + [f], i, |seen| + 1) ensures ExpectsNext(seen + [f], i, NextAfter(next, f.payload)) {
      NextRemembered(seen, f, i, next);
    }
  }

  lemma GenerationRemembered(s: State, seen: seq<Frame>, hostStream: string, f: Frame)
    requires Remembers(s, seen) && Accepts(s, hostStream, f)
    ensures var t, w := After(s, f.payload), seen + [f];
      t.lastGeneration == 0 || exists i :: 0 <= i < |w| && w[i].payload.Accepted? && w[i].payload.generation == t.lastGeneration
  {
    var w := seen + [f];
    assert w[|seen|] == f;
    if !f.payload.Accepted? && s.lastGeneration != 0 {
      var i :| 0 <= i < |seen| && seen[i].payload.Accepted? && seen[i].payload.generation == s.lastGeneration;
      assert w[i] == seen[i];
    }
  }

  /** The number a session expects after one more event. */
  function NextAfter(next: u64, p: Payload): u64 {
    if p.Accepted? then 0 else if p.Audio? then AudioEnd(p) % U64 else next
  }

  lemma AfterExpects(s: State, p: Payload)
    requires s.active.Some? || p.Accepted?
    ensures After(s, p).active.Some? ==>
      After(s, p).active.value.next == NextAfter(if s.active.Some? then s.active.value.next else 0, p)
  {
  }

  lemma NextRemembered(seen: seq<Frame>, f: Frame, i: int, next: u64)
    requires f.payload.Accepted? || forall k :: OpenedBy(seen, k, |seen|) ==> ExpectsNext(seen, k, next)
    requires OpenedBy(seen + [f], i, |seen| + 1)
    ensures ExpectsNext(seen + [f], i, NextAfter(next, f.payload))
  {
    OpenedByLast(seen, f, i);
    if f.payload.Accepted? {
      NothingExpectedYet(seen + [f]);
    } else {
      assert ExpectsNext(seen, i, next);
      if f.payload.Audio? {
        AudioMovesExpected(seen, f, i);
      } else {
        OthersMoveNothing(seen, f, i, next);
      }
    }
  }

  lemma NothingExpectedYet(seen: seq<Frame>)
    ensures ExpectsNext(seen, |seen| - 1, 0)
  {
  }

  lemma AudioMovesExpected(seen: seq<Frame>, f: Frame, i: int)
    requires f.payload.Audio? && 0 <= i < |seen|
    ensures ExpectsNext(seen + [f], i, AudioEnd(f.payload) % U64)
  {
    var w := seen + [f];
    assert w[|seen|] == f;
    assert forall k :: LastAudio(w, i, k) ==> k == |seen|;
  }

  lemma OthersMoveNothing(seen: seq<Frame>, f: Frame, i: int, next: u64)
    requires !f.payload.Audio? && 0 <= i < |seen| && ExpectsNext(seen, i, next)
    ensures ExpectsNext(seen + [f], i, next)
  {
    var w := seen + [f];
    forall k | LastAudio(w, i, k) ensures LastAudio(seen, i, k) && w[k] == seen[k] {
      forall j | k < j < |seen| ensures !seen[j].payload.Audio? {
        assert w[j] == seen[j];
      }
    }
    if NoAudioSince(w, i) {
      forall k | i < k < |seen| ensures !seen[k].payload.Audio? {
        assert w[k] == seen[k];
      }
    }
  }

  /** A state with an open session expects the number at which its last audio ended. */
  lemma ExpectedIff(seen: seq<Frame>, i: int, next: u64, first: u64)
    requires ExpectsNext(seen, i, next) && 0 <= i
    ensures first >= next <==> Follows(seen, i, first)
  {
    if !NoAudioSince(seen, i) {
      var k := AudioIsThere(seen, i);
      assert LastAudio(seen, i, k);
    }
  }

  lemma {:induction false} AudioIsThere(seen: seq<Frame>, i: int) returns (k: int)
    requires 0 <= i && !NoAudioSince(seen, i)
    ensures LastAudio(seen, i, k)
    decreases |seen|
  {
    var n := |seen| - 1;
    if seen[n].payload.Audio? {
      k := n;
    } else {
      k := AudioIsThere(seen[..n], i);
    }
  }

  lemma OpenedIffStillOpen(seen: seq<Frame>, i: int, session: string, generation: u64)
    ensures StillOpen(seen, i, session, generation) <==>
      OpenedBy(seen, i, |seen|) && seen[i].payload.session == session && seen[i].payload.generation == generation
  {
  }

  /** The session the state holds is the one the events leave open, in its mode. */
  lemma ActiveIffOpen(s: State, seen: seq<Frame>, session: string, generation: u64, mode: Mode)
    requires Agrees(s, seen)
    ensures s.active.Some? && s.active.value.id == session && s.active.value.generation == generation && s.active.value.mode == mode
      <==> OpenIn(seen, mode, session, generation)
  {
    if s.active.Some? {
      var i :| OpenedBy(seen, i, |seen|) && Describes(s.active.value, seen[i].payload);
      OpenedIffStillOpen(seen, i, s.active.value.id, s.active.value.generation);
      if OpenIn(seen, mode, session, generation) {
        var j :| StillOpen(seen, j, session, generation) && seen[j].payload.mode == mode;
        OpenedIffStillOpen(seen, j, session, generation);
        LastOpeningIsUnique(seen, i, j);
      }
    } else if OpenIn(seen, mode, session, generation) {
      var j :| StillOpen(seen, j, session, generation) && seen[j].payload.mode == mode;
      OpenedIffStillOpen(seen, j, session, generation);
    }
  }

  lemma AcceptedOpeningIff(s: State, seen: seq<Frame>, hostStream: string, f: Frame)
    requires Agrees(s, seen) && Remembers(s, seen) && f.payload.Accepted?
    ensures Accepts(s, hostStream, f) <==> Deserves(seen, hostStream, f)
  {
  }

  lemma AcceptedAudioIff(s: State, seen: seq<Frame>, hostStream: string, f: Frame)
    requires Agrees(s, seen) && Remembers(s, seen) && f.payload.Audio?
    ensures Accepts(s, hostStream, f) <==> Deserves(seen, hostStream, f)
  {
    var p := f.payload;
    assert "/voice/" + p.session + "/audio" == StreamOf(p);
    ActiveIffOpen(s, seen, p.session, p.generation, Conversation);
    if OpenIn(seen, Conversation, p.session, p.generation) {
      var i :| StillOpen(seen, i, p.session, p.generation) && seen[i].payload.mode == Conversation;
      OpenedIffStillOpen(seen, i, p.session, p.generation);
      ExpectedIff(seen, i, s.active.value.next, p.first);
      forall j | StillOpen(seen, j, p.session, p.generation) ensures i == j {
        OpenedIffStillOpen(seen, j, p.session, p.generation);
        LastOpeningIsUnique(seen, i, j);
      }
    }
  }

  lemma AcceptedOtherIff(s: State, seen: seq<Frame>, hostStream: string, f: Frame)
    requires Agrees(s, seen) && !f.payload.Audio? && !f.payload.Accepted?
    ensures Accepts(s, hostStream, f) <==> Deserves(seen, hostStream, f)
  {
    if InSession(f.payload) {
      assert "/voice/" + f.payload.session + "" == "/voice/" + f.payload.session;
      ActiveIffOpen(s, seen, f.payload.session, f.payload.generation, Conversation);
      ActiveIffOpen(s, seen, f.payload.session, f.payload.generation, Dictation);
    }
  }

  /** After any frames, a further one reaches the application if and only if it deserves to by the
      events so far, and then it is the next event. */
  lemma AcceptedIff(hostStream: string, frames: seq<Frame>, f: Frame)
    ensures var seen := Run(hostStream, frames).1;
      Run(hostStream, frames + [f]).1 == if Deserves(seen, hostStream, f) then seen + [f] else seen
  {
    var (s, seen) := Run(hostStream, frames);
    RunAgrees(hostStream, frames);
    RunRemembers(hostStream, frames);
    RunOneMore(hostStream, frames, f);
    if f.payload.Accepted? {
      AcceptedOpeningIff(s, seen, hostStream, f);
    } else if f.payload.Audio? {
      AcceptedAudioIff(s, seen, hostStream, f);
    } else {
      AcceptedOtherIff(s, seen, hostStream, f);
    }
  }

  /** Audio after the opening of the session still open is of that session. */
  lemma AudioSinceIsOurs(seen: seq<Frame>, i: int, k: int, session: string, generation: u64)
    requires StillOpen(seen, i, session, generation) && i < k < |seen| && seen[k].payload.Audio?
    requires InOpenSession(seen, k)
    ensures seen[k].payload.generation == generation
  {
    var j :| OpenedBy(seen, j, k) && SameSession(seen[j].payload, seen[k].payload);
    assert j == i;
  }

  lemma LastEndsLast(seen: seq<Frame>, i: int, session: string, generation: u64, first: u64)
    requires NoWrap(seen) && RangesOrdered(seen) && StillOpen(seen, i, session, generation)
    requires forall k :: 0 <= k < |seen| ==> InOpenSession(seen, k)
    ensures Follows(seen, i, first) <==> forall k :: i < k < |seen| && seen[k].payload.Audio? ==> AudioEnd(seen[k].payload) <= first
  {
    if !NoAudioSince(seen, i) {
      var last := AudioIsThere(seen, i);
      forall k | i < k < |seen| && seen[k].payload.Audio? ensures AudioEnd(seen[k].payload) <= AudioEnd(seen[last].payload) {
        NoneEndsLater(seen, i, k, last, session, generation);
      }
      assert LastAudio(seen, i, last) && AudioEnd(seen[last].payload) % U64 == AudioEnd(seen[last].payload);
    }
  }

  lemma NoneEndsLater(seen: seq<Frame>, i: int, k: int, last: int, session: string, generation: u64)
    requires RangesOrdered(seen) && StillOpen(seen, i, session, generation) && LastAudio(seen, i, last)
    requires i < k < |seen| && seen[k].payload.Audio? && InOpenSession(seen, k) && InOpenSession(seen, last)
    ensures AudioEnd(seen[k].payload) <= AudioEnd(seen[last].payload)
  {
    AudioSinceIsOurs(seen, i, k, session, generation);
    AudioSinceIsOurs(seen, i, last, session, generation);
    assert k < last ==> AudioOf(seen[last].payload, seen[k].payload.generation);
  }

  /** While no range wraps: an output frame is accepted exactly when the conversation is open and it starts
      at or after the end of all the audio accepted in it. */
  lemma AudioAcceptedIff(hostStream: string, frames: seq<Frame>, f: Frame)
    requires f.payload.Audio? && f.payload.output && NoWrap(Run(hostStream, frames).1)
    requires 1 <= |f.payload.lengths| <= 3 && f.bodyLength <= 8192 && f.bodyLength == Sum(f.payload.lengths)
    requires f.payload.timestamp == (if 960 * f.payload.first < U64 then 960 * f.payload.first else U64 - 1)
    requires f.stream == "/voice/" + f.payload.session + "/audio"
    ensures var p, seen := f.payload, Run(hostStream, frames).1;
      Run(hostStream, frames + [f]).1 == seen + [f] <==>
        exists i :: StillOpen(seen, i, p.session, p.generation) && seen[i].payload.mode == Conversation
          && forall k :: i < k < |seen| && seen[k].payload.Audio? ==> AudioEnd(seen[k].payload) <= p.first
  {
    var p, seen := f.payload, Run(hostStream, frames).1;
    AcceptedIff(hostStream, frames, f);
    RunAgrees(hostStream, frames);
    forall i | StillOpen(seen, i, p.session, p.generation)
      ensures Follows(seen, i, p.first) <==> forall k :: i < k < |seen| && seen[k].payload.Audio? ==> AudioEnd(seen[k].payload) <= p.first
    {
      LastEndsLast(seen, i, p.session, p.generation, p.first);
    }
  }

  lemma LastOpeningIsUnique(seen: seq<Frame>, i: int, j: int)
    requires OpenedBy(seen, i, |seen|) && OpenedBy(seen, j, |seen|)
    ensures i == j
  {
  }

  lemma AudioRangesAreDisjoint(hostStream: string, frames: seq<Frame>)
    requires NoWrap(Run(hostStream, frames).1)
    ensures RangesOrdered(Run(hostStream, frames).1)
  {
    RunAgrees(hostStream, frames);
  }

  /** The 64-bit boundary exactly: after an accepted audio frame every audio frame that can be
      accepted next starts at or after its end if and only if that end did not wrap around. */
  lemma NextAudioStartsAfterIff(s: State, hostStream: string, f: Frame)
    requires f.payload.Audio? && Accepts(s, hostStream, f)
    ensures (forall g: Frame :: g.payload.Audio? && Accepts(After(s, f.payload), hostStream, g) ==>
              AudioEnd(f.payload) <= g.payload.first)
            <==> AudioEnd(f.payload) < U64
  {
  }

  lemma RunOneMore(hostStream: string, frames: seq<Frame>, f: Frame)
    ensures var (s, seen) := Run(hostStream, frames);
      Run(hostStream, frames + [f]) ==
        if IsVoice(f) && Accepts(s, hostStream, f) then (After(s, f.payload), seen + [f]) else (s, seen)
  {
    assert (frames + [f])[..|frames|] == frames;
  }

  /** The boundary is reachable: an audio frame that ends past the largest number is followed by one
      that starts before it, and both reach the application. */
  lemma WrappedAudioOverlaps(hostStream: string) returns (frames: seq<Frame>)
    ensures Run(hostStream, frames).1 == frames && !RangesOrdered(frames)
  {
    var last: u64 := U64 - 1;
    var open := Frame("/voice", 0, Accepted("s", 1, Conversation, true));
    var wrapping := Frame("/voice/s/audio", 2, Audio("s", 1, true, last, last, [1, 1]));
    var again := Frame("/voice/s/audio", 1, Audio("s", 1, true, 5, 4800, [1]));
    assert StreamOf(wrapping.payload) == "/voice/s/audio" && StreamOf(again.payload) == "/voice/s/audio";
    assert [1, 1][..1] == [1] && Sum([1, 1]) == 2 && Sum([1]) == 1;
    RunOneMore(hostStream, [], open);
    assert [] + [open] == [open];
    RunOneMore(hostStream, [open], wrapping);
    assert [open] + [wrapping] == [open, wrapping];
    RunOneMore(hostStream, [open, wrapping], again);
    frames := [open, wrapping, again];
    assert [open, wrapping] + [again] == frames;
    assert AudioOf(frames[2].payload, frames[1].payload.generation) && AudioEnd(frames[1].payload) > frames[2].payload.first;
  }
}
