// How the client runtime turns the wire's NewAgent frames into agent endpoints:
// an agent whose session is not known yet is held back until its first own frame.
module AgentAnnounce {

  datatype Option<+T> = None | Some(value: T)

  type AgentId = string
  type SessionId = string
  type RegId = nat

  /** An agent stream path names its agent, so the payload's agent id is not a separate field. */
  datatype Stream = Stream(agent: AgentId, instance: string)

  datatype Info = Info(session: Option<SessionId>, project: Option<string>, roots: seq<string>, rest: string)

  // --------------------------------------------------- session of an event

  datatype BootstrapItem =
    | AgentStart(session: Option<SessionId>)
    | Compaction(logical: SessionId)
    | OtherItem

  datatype AgentEvent =
    | Start(session: Option<SessionId>)
    | Bootstrap(items: seq<BootstrapItem>)
    | CompactionNotify(logical: SessionId)
    | OtherEvent(body: string)

  function Candidate(i: BootstrapItem): Option<SessionId> {
    match i
    case AgentStart(s) => s
    case Compaction(s) => Some(s)
    case OtherItem => None
  }

  /** The one session all candidates agree on, if there is one. */
  function AgreedSession(items: seq<BootstrapItem>): (r: Option<SessionId>)
    ensures forall s :: r == Some(s) <==>
      (exists i :: 0 <= i < |items| && Candidate(items[i]) == Some(s))
      && forall i :: 0 <= i < |items| ==> Candidate(items[i]) in {None, Some(s)}
  {
    if items == [] then None
    else
      var n := |items| - 1;
      var before, last := AgreedSession(items[..n]), Candidate(items[n]);
      assert forall i :: 0 <= i < n ==> items[..n][i] == items[i];
      if last.None? then before
      else if forall i :: 0 <= i < n ==> Candidate(items[i]) in {None, last} then last
      else None
  }

  method BootstrapSessionId(items: seq<BootstrapItem>) returns (session: Option<SessionId>)
    ensures session == AgreedSession(items)
  {
    session := None;
    for n := 0 to |items|
      invariant forall i :: 0 <= i < n ==> Candidate(items[i]) in {None, session}
      invariant session.Some? ==> exists i :: 0 <= i < n && Candidate(items[i]) == session
    {
      var candidate := Candidate(items[n]);
      if candidate.None? {
        continue;
      }
      if session.Some? && session != candidate {
        return None;
      }
      session := candidate;
    }
  }

  function SessionOf(e: AgentEvent): Option<SessionId> {
    match e
    case Start(s) => s
    case Bootstrap(items) => AgreedSession(items)
    case CompactionNotify(s) => Some(s)
    case OtherEvent(_) => None
  }

  // ------------------------------------------------------------- the reader

  datatype Input =
    | NewAgent(stream: Stream, info: Info, writerUp: bool)
    | AgentFrame(stream: Stream, event: AgentEvent)
    | ProjectChanged(agent: AgentId, project: Option<string>, roots: seq<string>)
    | DropEndpoint(reg: RegId)
    | DropHost

  /** What leaves the reader, in order: endpoints on the host channel, events on agent channels.
      `at` is the input that caused it. */
  datatype Output =
    | Announce(reg: RegId, at: nat, info: Info)
    | Deliver(reg: RegId, at: nat, event: AgentEvent)

  datatype Registration = Registration(stream: Stream, at: nat)

  datatype Pending = Pending(reg: RegId, info: Info)

  datatype State = State(
    routes: map<Stream, RegId>,
    pending: map<Stream, Pending>,
    alive: set<RegId>,             // endpoints in the hands of the consumer
    hostOpen: bool,
    stopped: bool,
    regs: seq<Registration>,
    inputs: seq<Input>,
    log: seq<Output>)

  const Init := State(map[], map[], {}, true, false, [], [], [])

  /** Publishing an endpoint: when the host channel is gone the endpoint's route goes too. */
  function AfterPublish(s: State, stream: Stream, reg: RegId, info: Info): State {
    if s.hostOpen
    then s.(alive := s.alive + {reg}, log := s.log + [Announce(reg, |s.inputs|, info)])
    else s.(routes := s.routes - {stream})
  }

  function AfterNewAgent(s: State, stream: Stream, info: Info, writerUp: bool): State {
    if stream in s.routes || !writerUp then s.(stopped := true)
    else
      var reg := |s.regs|;
      var r := s.(routes := s.routes[stream := reg], regs := s.regs + [Registration(stream, |s.inputs|)]);
      if info.session.None? then r.(pending := r.pending[stream := Pending(reg, info)])
      else AfterPublish(r, stream, reg, info)
  }

  function AfterResolve(s: State, stream: Stream, session: Option<SessionId>): State {
    if stream !in s.pending then s
    else
      var p := s.pending[stream];
      AfterPublish(s.(pending := s.pending - {stream}), stream, p.reg, p.info.(session := session))
  }

  function AfterAgentFrame(s: State, stream: Stream, e: AgentEvent): State {
    if stream !in s.routes then s
    else
      var reg := s.routes[stream];
      var r := AfterResolve(s, stream, SessionOf(e));
      if reg in r.alive then r.(log := r.log + [Deliver(reg, |s.inputs|, e)]) else r
  }

  function MoveAgent(p: map<Stream, Pending>, agent: AgentId, project: Option<string>, roots: seq<string>)
    : map<Stream, Pending>
  {
    map s | s in p ::
      if s.agent == agent then p[s].(info := p[s].info.(project := project, roots := roots)) else p[s]
  }

  function After(s: State, i: Input): State {
    match i
    case NewAgent(stream, info, up) => AfterNewAgent(s, stream, info, up)
    case AgentFrame(stream, e) => AfterAgentFrame(s, stream, e)
    case ProjectChanged(agent, project, roots) => s.(pending := MoveAgent(s.pending, agent, project, roots))
    case DropEndpoint(reg) =>
      if reg !in s.alive || reg >= |s.regs| then s
      else s.(alive := s.alive - {reg}, routes := s.routes - {s.regs[reg].stream})
    case DropHost => s.(hostOpen := false)
  }

  /** A reader that has stopped takes no more frames; its endpoints can still be dropped. */
  function Next(s: State, i: Input): State {
    if s.stopped && !i.DropEndpoint? && !i.DropHost? then s else After(s, i).(inputs := s.inputs + [i])
  }

  function Run(inputs: seq<Input>): State {
    if inputs == [] then Init else Next(Run(inputs[..|inputs| - 1]), inputs[|inputs| - 1])
  }

  /** The reader's own state, changed in place one frame at a time. */
  class Reader {
    var routes: map<Stream, RegId>
    var pending: map<Stream, Pending>
    var alive: set<RegId>
    var hostOpen: bool
    var stopped: bool
    ghost var regs: seq<Registration>
    ghost var inputs: seq<Input>
    var log: seq<Output>
    var nextReg: nat

    ghost predicate Valid()
      reads this
    {
      nextReg == |regs|
    }

    ghost function Contents(): State
      reads this
    {
      State(routes, pending, alive, hostOpen, stopped, regs, inputs, log)
    }

    constructor ()
      ensures Valid() && Contents() == Init
    {
      routes, pending, alive, log, regs, inputs := map[], map[], {}, [], [], [];
      hostOpen, stopped, nextReg := true, false, 0;
    }

    method Publish(at: nat, stream: Stream, reg: RegId, info: Info)
      requires Valid() && at == |inputs|
      modifies this
      ensures Valid() && Contents() == AfterPublish(old(Contents()), stream, reg, info)
    {
      if hostOpen {
        alive := alive + {reg};
        log := log + [Announce(reg, at, info)];
      } else {
        routes := routes - {stream};
      }
    }

    method EmitNewAgent(at: nat, stream: Stream, info: Info, writerUp: bool)
      requires Valid() && at == |inputs|
      modifies this
      ensures Valid() && Contents() == AfterNewAgent(old(Contents()), stream, info, writerUp)
    {
      if stream in routes {
        stopped := true;
        return;
      }
      var reg := nextReg;
      routes := routes[stream := reg];
      if !writerUp {
        routes := routes - {stream};
        stopped := true;
        return;
      }
      nextReg := nextReg + 1;
      regs := regs + [Registration(stream, at)];
      if info.session.None? {
        pending := pending[stream := Pending(reg, info)];
        return;
      }
      Publish(at, stream, reg, info);
    }

    method HandleAgentFrame(at: nat, stream: Stream, event: AgentEvent)
      requires Valid() && at == |inputs|
      modifies this
      ensures Valid() && Contents() == AfterAgentFrame(old(Contents()), stream, event)
    {
      if stream !in routes {
        return;
      }
      var reg := routes[stream];
      if stream in pending {
        var p := pending[stream];
        pending := pending - {stream};
        Publish(at, stream, p.reg, p.info.(session := SessionOf(event)));
      }
      if reg in alive {
        log := log + [Deliver(reg, at, event)];
      }
    }

    method ProjectChanged(agent: AgentId, project: Option<string>, roots: seq<string>)
      requires Valid()
      modifies this`pending
      ensures Valid() && Contents() == old(Contents()).(pending := MoveAgent(old(pending), agent, project, roots))
    {
      var left := pending.Keys;
      while left != {}
        invariant left <= pending.Keys == old(pending).Keys
        invariant forall s :: s in pending ==>
          pending[s] == if s in left then old(pending)[s] else MoveAgent(old(pending), agent, project, roots)[s]
      {
        var s :| s in left;
        left := left - {s};
        if s.agent == agent {
          var p := pending[s];
          pending := pending[s := p.(info := p.info.(project := project, roots := roots))];
        }
      }
    }
  }

  // ------------------------------------------------------ what must hold

  /** No frame of `stream` among inputs `lo` to `hi`. */
  ghost predicate Quiet(inputs: seq<Input>, stream: Stream, lo: nat, hi: nat)
    requires hi <= |inputs|
  {
    forall i :: lo <= i < hi ==> !(inputs[i].AgentFrame? && inputs[i].stream == stream)
  }

  /** `info` as changed by the latest project change of `agent` among inputs `lo` to `hi`. */
  ghost function Moved(inputs: seq<Input>, agent: AgentId, lo: nat, hi: nat, info: Info): Info
    requires hi <= |inputs|
    decreases hi
  {
    if hi <= lo then info
    else if inputs[hi - 1].ProjectChanged? && inputs[hi - 1].agent == agent
    then info.(project := inputs[hi - 1].project, roots := inputs[hi - 1].roots)
    else Moved(inputs, agent, lo, hi - 1, info)
  }

  ghost predicate Registered(s: State, r: RegId) {
    r < |s.regs| && s.regs[r].at < |s.inputs|
    && s.inputs[s.regs[r].at].NewAgent? && s.inputs[s.regs[r].at].stream == s.regs[r].stream
  }

  /** The announcement carries exactly what the inputs up to it determine. */
  ghost predicate AnnouncedRight(s: State, o: Output) {
    o.Announce? && Registered(s, o.reg) && o.at < |s.inputs|
    && var reg := s.regs[o.reg];
       var given := s.inputs[reg.at].info;
       if given.session.Some? then o.at == reg.at && o.info == given
       else
         && reg.at < o.at && Quiet(s.inputs, reg.stream, reg.at + 1, o.at)
         && s.inputs[o.at].AgentFrame? && s.inputs[o.at].stream == reg.stream
         && o.info == Moved(s.inputs, reg.stream.agent, reg.at + 1, o.at, given)
                      .(session := SessionOf(s.inputs[o.at].event))
  }

  ghost predicate Announced(log: seq<Output>, r: RegId) {
    exists k :: 0 <= k < |log| && log[k].Announce? && log[k].reg == r
  }

  ghost predicate AnnouncedOnce(log: seq<Output>) {
    forall j, k :: 0 <= j < k < |log| && log[j].Announce? && log[k].Announce? ==> log[j].reg != log[k].reg
  }

  ghost predicate AnnouncedFirst(log: seq<Output>) {
    forall k :: 0 <= k < |log| && log[k].Deliver? ==> Announced(log[..k], log[k].reg)
  }

  /** A delivered event is the event of the input that caused it, on the stream of its registration. */
  ghost predicate DeliveredRight(s: State, o: Output) {
    o.Deliver? && Registered(s, o.reg) && o.at < |s.inputs| && s.regs[o.reg].at < o.at
    && s.inputs[o.at] == AgentFrame(s.regs[o.reg].stream, o.event)
  }

  ghost predicate LogRight(s: State) {
    forall k :: 0 <= k < |s.log| ==>
      if s.log[k].Announce? then AnnouncedRight(s, s.log[k]) else DeliveredRight(s, s.log[k])
  }

  ghost predicate Waiting(s: State, stream: Stream)
    requires stream in s.pending
  {
    var p := s.pending[stream];
    Registered(s, p.reg) && s.regs[p.reg].stream == stream
    && stream in s.routes && s.routes[stream] == p.reg
    && !Announced(s.log, p.reg)
    && s.inputs[s.regs[p.reg].at].info.session.None?
    && Quiet(s.inputs, stream, s.regs[p.reg].at + 1, |s.inputs|)
    && p.info == Moved(s.inputs, stream.agent, s.regs[p.reg].at + 1, |s.inputs|, s.inputs[s.regs[p.reg].at].info)
  }

  ghost predicate RoutesRight(s: State) {
    && (forall t :: t in s.routes ==>
         Registered(s, s.routes[t]) && s.regs[s.routes[t]].stream == t
         && (s.routes[t] in s.alive || t in s.pending))
    && (forall r :: r in s.alive ==>
         Registered(s, r) && Announced(s.log, r)
         && s.regs[r].stream in s.routes && s.routes[s.regs[r].stream] == r)
  }

  /** While the host channel is open a registration is waiting or has been announced. */
  ghost predicate NoneForgotten(s: State) {
    forall r :: 0 <= r < |s.regs| ==>
      Registered(s, r)
      && (s.hostOpen ==> Announced(s.log, r) || (s.regs[r].stream in s.pending && s.pending[s.regs[r].stream].reg == r))
  }

  ghost predicate Inv(s: State) {
    && AnnouncedOnce(s.log)
    && AnnouncedFirst(s.log)
    && LogRight(s)
    && (forall t :: t in s.pending ==> Waiting(s, t))
    && RoutesRight(s)
    && NoneForgotten(s)
  }

  // ------------------------------------------------------------ preservation

  lemma {:induction false} MovedStable(inputs: seq<Input>, more: seq<Input>, agent: AgentId, lo: nat, hi: nat, info: Info)
    requires hi <= |inputs|
    ensures Moved(inputs + more, agent, lo, hi, info) == Moved(inputs, agent, lo, hi, info)
    decreases hi
  {
    if lo < hi {
      assert (inputs + more)[hi - 1] == inputs[hi - 1];
      MovedStable(inputs, more, agent, lo, hi - 1, info);
    }
  }

  /** Adding an input changes nothing about what was already written. */
  lemma WrittenStaysRight(s: State, i: Input, regs: seq<Registration>, o: Output)
    requires if o.Announce? then AnnouncedRight(s, o) else DeliveredRight(s, o)
    requires s.regs <= regs
    ensures var t := s.(inputs := s.inputs + [i], regs := regs);
            if o.Announce? then AnnouncedRight(t, o) else DeliveredRight(t, o)
  {
    if o.Announce? {
      MovedStable(s.inputs, [i], s.regs[o.reg].stream.agent, s.regs[o.reg].at + 1, o.at, s.inputs[s.regs[o.reg].at].info);
    }
  }

  lemma AnnouncedMore(log: seq<Output>, o: Output, r: RegId)
    ensures Announced(log + [o], r) <==> Announced(log, r) || (o.Announce? && o.reg == r)
  {
    assert (log + [o])[|log|] == o;
    if k :| 0 <= k < |log| && log[k].Announce? && log[k].reg == r {
      assert (log + [o])[k] == log[k];
    }
  }

  /** Appending to a well-formed log. */
  lemma LogGrows(log: seq<Output>, o: Output)
    requires AnnouncedOnce(log) && AnnouncedFirst(log)
    requires if o.Announce? then !Announced(log, o.reg) else Announced(log, o.reg)
    ensures AnnouncedOnce(log + [o]) && AnnouncedFirst(log + [o])
  {
    forall k | 0 <= k < |log + [o]| && (log + [o])[k].Deliver?
      ensures Announced((log + [o])[..k], (log + [o])[k].reg)
    {
      assert (log + [o])[..k] == log[..k];
      assert log[..|log|] == log;
    }
  }

  lemma {:induction false} MovedOnlyMoves(inputs: seq<Input>, agent: AgentId, lo: nat, hi: nat, info: Info,
                                          project: Option<string>, roots: seq<string>)
    requires hi <= |inputs|
    ensures Moved(inputs, agent, lo, hi, info).(project := project, roots := roots)
            == info.(project := project, roots := roots)
    decreases hi
  {
    if lo < hi {
      MovedOnlyMoves(inputs, agent, lo, hi - 1, info, project, roots);
    }
  }

  /** A waiting agent the input is not about keeps waiting. */
  lemma WaitingStays(s: State, i: Input, t: State, stream: Stream)
    requires stream in s.pending && Waiting(s, stream)
    requires t.inputs == s.inputs + [i] && s.regs <= t.regs
    requires stream in t.pending && t.pending[stream].reg == s.pending[stream].reg
    requires stream in t.routes && t.routes[stream] == s.routes[stream]
    requires !Announced(t.log, s.pending[stream].reg)
    requires !(i.AgentFrame? && i.stream == stream)
    requires t.pending[stream].info ==
             if i.ProjectChanged? && i.agent == stream.agent
             then s.pending[stream].info.(project := i.project, roots := i.roots) else s.pending[stream].info
    ensures Waiting(t, stream)
  {
    var r := s.pending[stream].reg;
    var at, given := s.regs[r].at, s.inputs[s.regs[r].at].info;
    MovedStable(s.inputs, [i], stream.agent, at + 1, |s.inputs|, given);
    assert t.inputs[|s.inputs|] == i;
    if i.ProjectChanged? {
      MovedOnlyMoves(s.inputs, stream.agent, at + 1, |s.inputs|, given, i.project, i.roots);
    }
  }

  lemma LogStaysRight(s: State, i: Input, t: State)
    requires LogRight(s) && t.inputs == s.inputs + [i] && s.regs <= t.regs && t.log == s.log
    ensures LogRight(t)
  {
    forall k | 0 <= k < |s.log|
      ensures if t.log[k].Announce? then AnnouncedRight(t, t.log[k]) else DeliveredRight(t, t.log[k])
    {
      WrittenStaysRight(s, i, t.regs, s.log[k]);
    }
  }

  lemma LogGrowsRight(s: State, i: Input, t: State, o: Output)
    requires LogRight(s) && t.inputs == s.inputs + [i] && s.regs <= t.regs && t.log == s.log + [o]
    requires if o.Announce? then AnnouncedRight(t, o) else DeliveredRight(t, o)
    ensures LogRight(t)
  {
    LogStaysRight(s, i, t.(log := s.log));
    forall k | 0 <= k < |t.log|
      ensures if t.log[k].Announce? then AnnouncedRight(t, t.log[k]) else DeliveredRight(t, t.log[k])
    {
      if k < |s.log| {
        assert t.log[k] == t.(log := s.log).log[k];
      }
    }
  }

  lemma RegistrationsStay(s: State, i: Input, t: State)
    requires t.inputs == s.inputs + [i] && s.regs <= t.regs
    ensures forall r: RegId :: Registered(s, r) ==> Registered(t, r) && t.regs[r] == s.regs[r]
  {
  }

  lemma DropKeepsRoutes(s: State, reg: RegId, t: State)
    requires RoutesRight(s) && reg in s.alive
    requires forall a :: a in s.pending ==> a in s.routes && s.pending[a].reg == s.routes[a] && !Announced(s.log, s.pending[a].reg)
    requires t == s.(alive := s.alive - {reg}, routes := s.routes - {s.regs[reg].stream}, inputs := s.inputs + [DropEndpoint(reg)])
    ensures RoutesRight(t)
    ensures forall a :: a in s.pending ==> a in t.routes
  {
  }

  /** Inputs that change neither routes, registrations nor the log. */
  lemma RoutesUntouched(s: State, i: Input, t: State)
    requires RoutesRight(s) && t.inputs == s.inputs + [i] && t.regs == s.regs && t.log == s.log
    requires t.routes == s.routes && t.alive == s.alive && t.pending.Keys == s.pending.Keys
    ensures RoutesRight(t)
  {
  }

  lemma NoneForgottenStays(s: State, i: Input, t: State)
    requires NoneForgotten(s) && t.inputs == s.inputs + [i] && t.regs == s.regs && t.log == s.log
    requires t.pending.Keys == s.pending.Keys && (t.hostOpen ==> s.hostOpen)
    requires forall a :: a in s.pending ==> t.pending[a].reg == s.pending[a].reg
    ensures NoneForgotten(t)
  {
  }

  lemma QuietInputsKeepInv(s: State, i: Input)
    requires Inv(s)
    requires i.DropHost? || (i.DropEndpoint? && i.reg !in s.alive)
             || (i.AgentFrame? && i.stream !in s.routes && !s.stopped)
    ensures Inv(Next(s, i))
  {
    var t := Next(s, i);
    LogStaysRight(s, i, t);
    RoutesUntouched(s, i, t);
    NoneForgottenStays(s, i, t);
    forall stream | stream in t.pending ensures Waiting(t, stream) {
      WaitingStays(s, i, t, stream);
    }
  }

  lemma DropKeepsInv(s: State, i: Input)
    requires Inv(s) && i.DropEndpoint? && i.reg in s.alive
    ensures Inv(Next(s, i))
  {
    var t := Next(s, i);
    LogStaysRight(s, i, t);
    DropKeepsRoutes(s, i.reg, t);
    NoneForgottenStays(s, i, t);
    forall stream | stream in t.pending ensures Waiting(t, stream) {
      WaitingStays(s, i, t, stream);
    }
  }

  lemma ProjectChangedKeepsInv(s: State, i: Input)
    requires Inv(s) && i.ProjectChanged? && !s.stopped
    ensures Inv(Next(s, i))
  {
    var t := Next(s, i);
    LogStaysRight(s, i, t);
    RoutesUntouched(s, i, t);
    NoneForgottenStays(s, i, t);
    forall stream | stream in t.pending ensures Waiting(t, stream) {
      ChangedStillWaits(s, i, stream);
    }
  }

  lemma ChangedStillWaits(s: State, i: Input, stream: Stream)
    requires Inv(s) && i.ProjectChanged? && !s.stopped && stream in Next(s, i).pending
    ensures Waiting(Next(s, i), stream)
  {
    WaitingStays(s, i, Next(s, i), stream);
  }

  /** A fresh registration is in no log entry. */
  lemma FreshIsUnannounced(s: State)
    requires LogRight(s)
    ensures !Announced(s.log, |s.regs|)
  {
  }

  // ---- registering an agent

  lemma RefusedKeepsInv(s: State, i: Input)
    requires Inv(s) && i.NewAgent? && !s.stopped && (i.stream in s.routes || !i.writerUp)
    ensures Inv(Next(s, i))
  {
    var t := Next(s, i);
    LogStaysRight(s, i, t);
    RoutesUntouched(s, i, t);
    NoneForgottenStays(s, i, t);
    forall stream | stream in t.pending ensures Waiting(t, stream) {
      WaitingStays(s, i, t, stream);
    }
  }

  /** The state just after the new route and registration, before anything is published. */
  function WithRegistration(s: State, i: Input): State
    requires i.NewAgent?
  {
    s.(routes := s.routes[i.stream := |s.regs|], regs := s.regs + [Registration(i.stream, |s.inputs|)],
       inputs := s.inputs + [i])
  }

  lemma DeferredKeepsInv(s: State, i: Input)
    requires Inv(s) && i.NewAgent? && !s.stopped && i.stream !in s.routes && i.writerUp && i.info.session.None?
    ensures Inv(Next(s, i))
  {
    var t := Next(s, i);
    assert t == WithRegistration(s, i).(pending := s.pending[i.stream := Pending(|s.regs|, i.info)]);
    LogStaysRight(s, i, t);
    FreshIsUnannounced(s);
    NewRegistration(s, i, t);
    forall stream | stream in t.pending ensures Waiting(t, stream) {
      if stream != i.stream {
        WaitingStays(s, i, t, stream);
      }
    }
  }

  lemma NewRegistration(s: State, i: Input, t: State)
    requires RoutesRight(s) && NoneForgotten(s) && i.NewAgent? && i.stream !in s.routes
    requires forall a :: a in s.pending ==> a in s.routes
    requires t == WithRegistration(s, i).(pending := s.pending[i.stream := Pending(|s.regs|, i.info)])
    ensures RoutesRight(t) && NoneForgotten(t) && Registered(t, |s.regs|)
  {
    RegistrationsStay(s, i, t);
    assert Registered(t, |s.regs|);
    NewRouteIsRight(s, i, t);
    NewIsNotForgotten(s, i, t);
  }

  lemma NewRouteIsRight(s: State, i: Input, t: State)
    requires RoutesRight(s) && i.NewAgent? && i.stream !in s.routes && Registered(t, |s.regs|)
    requires forall r: RegId :: Registered(s, r) ==> Registered(t, r) && t.regs[r] == s.regs[r]
    requires t == WithRegistration(s, i).(pending := s.pending[i.stream := Pending(|s.regs|, i.info)])
    ensures RoutesRight(t)
  {
  }

  lemma NewIsNotForgotten(s: State, i: Input, t: State)
    requires NoneForgotten(s) && i.NewAgent? && i.stream !in s.routes && Registered(t, |s.regs|)
    requires forall a :: a in s.pending ==> a in s.routes
    requires forall r: RegId :: Registered(s, r) ==> Registered(t, r) && t.regs[r] == s.regs[r]
    requires t == WithRegistration(s, i).(pending := s.pending[i.stream := Pending(|s.regs|, i.info)])
    ensures NoneForgotten(t)
  {
  }

  lemma PublishedRegistration(s: State, i: Input, t: State, o: Output)
    requires RoutesRight(s) && NoneForgotten(s) && i.NewAgent? && i.stream !in s.routes
    requires forall a :: a in s.pending ==> a in s.routes
    requires o.Announce? && o.reg == |s.regs|
    requires t == WithRegistration(s, i).(alive := s.alive + {|s.regs|}, log := s.log + [o])
    ensures RoutesRight(t) && NoneForgotten(t)
  {
    RegistrationsStay(s, i, t);
    forall r: RegId ensures Announced(t.log, r) <==> Announced(s.log, r) || r == |s.regs| {
      AnnouncedMore(s.log, o, r);
    }
  }

  lemma ImmediateKeepsInv(s: State, i: Input)
    requires Inv(s) && i.NewAgent? && !s.stopped && i.stream !in s.routes && i.writerUp && i.info.session.Some? && s.hostOpen
    ensures Inv(Next(s, i))
  {
    var t := Next(s, i);
    var o := Announce(|s.regs|, |s.inputs|, i.info);
    assert t == WithRegistration(s, i).(alive := s.alive + {|s.regs|}, log := s.log + [o]);
    FreshIsUnannounced(s);
    LogGrows(s.log, o);
    LogGrowsRight(s, i, t, o);
    PublishedRegistration(s, i, t, o);
    forall stream | stream in t.pending ensures Waiting(t, stream) {
      AnnouncedMore(s.log, o, s.pending[stream].reg);
      WaitingStays(s, i, t, stream);
    }
  }

  lemma UnpublishedKeepsInv(s: State, i: Input)
    requires Inv(s) && i.NewAgent? && !s.stopped && i.stream !in s.routes && i.writerUp && i.info.session.Some? && !s.hostOpen
    ensures Inv(Next(s, i))
  {
    var t := Next(s, i);
    assert t.routes == s.routes;
    LogStaysRight(s, i, t);
    RegistrationsStay(s, i, t);
    forall stream | stream in t.pending ensures Waiting(t, stream) {
      WaitingStays(s, i, t, stream);
    }
  }

  // ---- a frame on an agent stream

  lemma AbandonedKeepsInv(s: State, i: Input)
    requires Inv(s) && i.AgentFrame? && !s.stopped && i.stream in s.pending && !s.hostOpen
    ensures Inv(Next(s, i))
  {
    var t := Next(s, i);
    assert t == s.(pending := s.pending - {i.stream}, routes := s.routes - {i.stream}, inputs := s.inputs + [i]);
    LogStaysRight(s, i, t);
    RegistrationsStay(s, i, t);
    forall stream | stream in t.pending ensures Waiting(t, stream) {
      WaitingStays(s, i, t, stream);
    }
  }

  lemma DeliveredKeepsInv(s: State, i: Input)
    requires Inv(s) && i.AgentFrame? && !s.stopped && i.stream in s.routes && i.stream !in s.pending
    ensures Inv(Next(s, i))
  {
    var t := Next(s, i);
    var o := Deliver(s.routes[i.stream], |s.inputs|, i.event);
    assert t == s.(log := s.log + [o], inputs := s.inputs + [i]);
    LogGrows(s.log, o);
    LogGrowsRight(s, i, t, o);
    RegistrationsStay(s, i, t);
    forall r: RegId ensures Announced(t.log, r) <==> Announced(s.log, r) {
      AnnouncedMore(s.log, o, r);
    }
    LoggedMoreKeepsRoutes(s, i, t);
    forall stream | stream in t.pending ensures Waiting(t, stream) {
      WaitingStays(s, i, t, stream);
    }
  }

  lemma LoggedMoreKeepsRoutes(s: State, i: Input, t: State)
    requires RoutesRight(s) && NoneForgotten(s)
    requires t == s.(log := t.log, inputs := s.inputs + [i])
    requires forall r: RegId :: Announced(t.log, r) <==> Announced(s.log, r)
    ensures RoutesRight(t) && NoneForgotten(t)
  {
  }

  lemma ResolvedKeepsInv(s: State, i: Input)
    requires Inv(s) && i.AgentFrame? && !s.stopped && i.stream in s.pending && s.hostOpen
    ensures Inv(Next(s, i))
  {
    var t := Next(s, i);
    var p := s.pending[i.stream];
    var o := Announce(p.reg, |s.inputs|, p.info.(session := SessionOf(i.event)));
    var e := Deliver(p.reg, |s.inputs|, i.event);
    assert Waiting(s, i.stream);
    var m := s.(pending := s.pending - {i.stream}, alive := s.alive + {p.reg}, log := s.log + [o],
                inputs := s.inputs + [i]);
    assert t == m.(log := m.log + [e]);
    ResolvedRight(s, i, m, o, e);
    LogGrows(s.log, o);
    AnnouncedMore(s.log, o, p.reg);
    LogGrows(m.log, e);
    forall r: RegId ensures Announced(t.log, r) <==> Announced(s.log, r) || r == p.reg {
      AnnouncedMore(s.log, o, r);
      AnnouncedMore(m.log, e, r);
    }
    ResolvedKeepsRoutes(s, i, t);
    forall stream | stream in t.pending ensures Waiting(t, stream) {
      WaitingStays(s, i, t, stream);
    }
  }

  /** The deferred announcement and the event behind it carry what they should. */
  lemma ResolvedRight(s: State, i: Input, m: State, o: Output, e: Output)
    requires i.AgentFrame? && i.stream in s.pending && Waiting(s, i.stream) && LogRight(s)
    requires o == Announce(s.pending[i.stream].reg, |s.inputs|, s.pending[i.stream].info.(session := SessionOf(i.event)))
    requires e == Deliver(s.pending[i.stream].reg, |s.inputs|, i.event)
    requires m.inputs == s.inputs + [i] && m.regs == s.regs && m.log == s.log + [o]
    ensures LogRight(m.(log := m.log + [e]))
  {
    var reg := s.regs[o.reg];
    MovedStable(s.inputs, [i], reg.stream.agent, reg.at + 1, |s.inputs|, s.inputs[reg.at].info);
    LogGrowsRight(s, i, m, o);
    var t := m.(log := m.log + [e]);
    forall k | 0 <= k < |t.log|
      ensures if t.log[k].Announce? then AnnouncedRight(t, t.log[k]) else DeliveredRight(t, t.log[k])
    {
      if k < |m.log| {
        assert t.log[k] == m.log[k];
        assert if m.log[k].Announce? then AnnouncedRight(m, m.log[k]) else DeliveredRight(m, m.log[k]);
      }
    }
  }

  lemma ResolvedKeepsRoutes(s: State, i: Input, t: State)
    requires RoutesRight(s) && NoneForgotten(s) && i.AgentFrame? && i.stream in s.pending && Waiting(s, i.stream)
    requires t == s.(pending := s.pending - {i.stream}, alive := s.alive + {s.pending[i.stream].reg}, log := t.log,
                     inputs := s.inputs + [i])
    requires forall r: RegId :: Announced(t.log, r) <==> Announced(s.log, r) || r == s.pending[i.stream].reg
    ensures RoutesRight(t) && NoneForgotten(t)
  {
  }

  // -------------------------------------------------------------- whole runs

  lemma StepKeepsInv(s: State, i: Input)
    requires Inv(s)
    ensures Inv(Next(s, i))
  {
    if s.stopped && !i.DropEndpoint? && !i.DropHost? {
    } else if i.DropEndpoint? && i.reg in s.alive {
      DropKeepsInv(s, i);
    } else if i.ProjectChanged? {
      ProjectChangedKeepsInv(s, i);
    } else if i.NewAgent? {
      NewAgentStepKeepsInv(s, i);
    } else if i.AgentFrame? && i.stream in s.routes {
      if i.stream !in s.pending {
        DeliveredKeepsInv(s, i);
      } else if s.hostOpen {
        ResolvedKeepsInv(s, i);
      } else {
        AbandonedKeepsInv(s, i);
      }
    } else {
      QuietInputsKeepInv(s, i);
    }
  }

  lemma NewAgentStepKeepsInv(s: State, i: Input)
    requires Inv(s) && i.NewAgent? && !s.stopped
    ensures Inv(Next(s, i))
  {
    if i.stream in s.routes || !i.writerUp {
      RefusedKeepsInv(s, i);
    } else if i.info.session.None? {
      DeferredKeepsInv(s, i);
    } else if s.hostOpen {
      ImmediateKeepsInv(s, i);
    } else {
      UnpublishedKeepsInv(s, i);
    }
  }

  lemma {:induction false} RunKeepsInv(inputs: seq<Input>)
    ensures Inv(Run(inputs))
  {
    if inputs != [] {
      RunKeepsInv(inputs[..|inputs| - 1]);
      StepKeepsInv(Run(inputs[..|inputs| - 1]), inputs[|inputs| - 1]);
    }
  }

  /** Each registration is announced at most once, and before any event on its channel. */
  lemma AnnouncedAtMostOnceAndFirst(inputs: seq<Input>, j: nat, k: nat)
    requires j < |Run(inputs).log| && k < |Run(inputs).log|
    requires Run(inputs).log[j].reg == Run(inputs).log[k].reg && Run(inputs).log[j].Announce? && j != k
    ensures Run(inputs).log[k].Deliver? && j < k
  {
    RunKeepsInv(inputs);
  }

  /** Every event that reaches an agent channel is preceded by that registration's announcement. */
  lemma NoEventWithoutAnnouncement(inputs: seq<Input>, k: nat) returns (j: nat)
    requires k < |Run(inputs).log| && Run(inputs).log[k].Deliver?
    ensures j < k && Run(inputs).log[j].Announce? && Run(inputs).log[j].reg == Run(inputs).log[k].reg
    ensures Run(inputs).log[j].at <= Run(inputs).log[k].at
  {
    RunKeepsInv(inputs);
    var s := Run(inputs);
    var a :| 0 <= a < k && s.log[..k][a].Announce? && s.log[..k][a].reg == s.log[k].reg;
    j := a;
    assert AnnouncedRight(s, s.log[j]) && DeliveredRight(s, s.log[k]);
  }

  /** What an announcement says is fixed by the inputs alone: unchanged when the session was known,
      otherwise the session of the first own frame and the latest project change before it. */
  lemma AnnouncementContents(inputs: seq<Input>, k: nat)
    requires k < |Run(inputs).log| && Run(inputs).log[k].Announce?
    ensures AnnouncedRight(Run(inputs), Run(inputs).log[k])
  {
    RunKeepsInv(inputs);
  }

  // ----------------------------------------------------- what each frame does

  /** The item gives this session. */
  predicate Gives(i: BootstrapItem, x: SessionId) {
    i == AgentStart(Some(x)) || i == Compaction(x)
  }

  /** The session an event names: its own, or the only one its items give. */
  predicate NamesSession(e: AgentEvent, x: SessionId) {
    || e == Start(Some(x)) || e == CompactionNotify(x)
    || (e.Bootstrap? && (exists i :: 0 <= i < |e.items| && Gives(e.items[i], x))
        && forall i :: 0 <= i < |e.items| && !e.items[i].OtherItem? && e.items[i] != AgentStart(None) ==> Gives(e.items[i], x))
  }

  lemma SessionIs(e: AgentEvent, x: SessionId)
    ensures SessionOf(e) == Some(x) <==> NamesSession(e, x)
  {
    if e.Bootstrap? {
      forall i | 0 <= i < |e.items|
        ensures Candidate(e.items[i]) == Some(x) <==> Gives(e.items[i], x)
        ensures Candidate(e.items[i]).None? <==> e.items[i].OtherItem? || e.items[i] == AgentStart(None)
      {
      }
    }
  }

  /** A frame of an agent: without a route it is dropped; on a channel that is open it is delivered; and
      if it is the first one, the announcement with its session goes out before it, or, when nobody
      listens any more, the route goes. */
  lemma AgentFrameFate(inputs: seq<Input>, stream: Stream, e: AgentEvent)
    requires !Run(inputs).stopped
    ensures var s, t := Run(inputs), Run(inputs + [AgentFrame(stream, e)]);
      var n := |s.inputs|;
      && (stream !in s.routes ==> t.log == s.log && t.routes == s.routes)
      && (stream in s.routes && stream !in s.pending ==>
            t.log == s.log + [Deliver(s.routes[stream], n, e)] && t.routes == s.routes)
      && (stream in s.pending && s.hostOpen ==>
            && stream in s.routes && t.pending == s.pending - {stream} && t.routes == s.routes
            && var reg, known := s.routes[stream], s.pending[stream].info;
               exists session ::
                 && (forall x :: session == Some(x) <==> NamesSession(e, x))
                 && t.log == s.log + [Announce(reg, n, Info(session, known.project, known.roots, known.rest))] + [Deliver(reg, n, e)])
      && (stream in s.pending && !s.hostOpen ==>
            t.log == s.log && t.pending == s.pending - {stream} && t.routes == s.routes - {stream})
  {
    RunKeepsInv(inputs);
    var s := Run(inputs);
    RunOneMore(inputs, AgentFrame(stream, e));
    forall x ensures SessionOf(e) == Some(x) <==> NamesSession(e, x) {
      SessionIs(e, x);
    }
    if stream in s.pending {
      assert Waiting(s, stream);
      FirstFrameFate(s, stream, e);
    }
  }

  lemma FirstFrameFate(s: State, stream: Stream, e: AgentEvent)
    requires !s.stopped && stream in s.pending && stream in s.routes && s.pending[stream].reg == s.routes[stream]
    requires RoutesRight(s) && !Announced(s.log, s.routes[stream])
    ensures var t := Next(s, AgentFrame(stream, e));
      && t.pending == s.pending - {stream}
      && (s.hostOpen ==>
            && t.routes == s.routes
            && var reg, known := s.routes[stream], s.pending[stream].info;
               t.log == s.log + [Announce(reg, |s.inputs|, Info(SessionOf(e), known.project, known.roots, known.rest))] + [Deliver(reg, |s.inputs|, e)])
      && (!s.hostOpen ==> t.log == s.log && t.routes == s.routes - {stream})
  {
  }

  /** A new agent stops the reader when its stream is taken or cannot be written; otherwise it is
      announced at once when its session is known and somebody listens, and held back when it is not. */
  lemma NewAgentFate(inputs: seq<Input>, stream: Stream, info: Info, writerUp: bool)
    requires !Run(inputs).stopped
    ensures var s, t := Run(inputs), Run(inputs + [NewAgent(stream, info, writerUp)]);
      var reg := |s.regs|;
      && (t.stopped <==> stream in s.routes || !writerUp)
      && (t.stopped ==> t.log == s.log && t.routes == s.routes && t.pending == s.pending)
      && (!t.stopped && info.session.None? ==>
            t.routes == s.routes[stream := reg] && t.pending == s.pending[stream := Pending(reg, info)] && t.log == s.log)
      && (!t.stopped && info.session.Some? && s.hostOpen ==>
            && t.routes == s.routes[stream := reg] && t.pending == s.pending && t.alive == s.alive + {reg}
            && t.log == s.log + [Announce(reg, |s.inputs|, info)])
      && (!t.stopped && info.session.Some? && !s.hostOpen ==> t.log == s.log && t.routes == s.routes && t.pending == s.pending)
  {
    var s := Run(inputs);
    RunOneMore(inputs, NewAgent(stream, info, writerUp));
    assert stream !in s.routes ==> s.routes[stream := |s.regs|] - {stream} == s.routes;
  }

  /** Dropping an endpoint takes its route away. */
  lemma EndpointDropFate(inputs: seq<Input>, reg: RegId)
    requires reg in Run(inputs).alive
    ensures var s, t := Run(inputs), Run(inputs + [DropEndpoint(reg)]);
      reg < |s.regs| && t.alive == s.alive - {reg} && t.routes == s.routes - {s.regs[reg].stream} && t.log == s.log
  {
    RunKeepsInv(inputs);
    AliveIsRegistered(Run(inputs), reg);
    RunOneMore(inputs, DropEndpoint(reg));
  }

  lemma RunOneMore(inputs: seq<Input>, i: Input)
    ensures Run(inputs + [i]) == Next(Run(inputs), i)
  {
    assert (inputs + [i])[..|inputs|] == inputs;
  }

  lemma AliveIsRegistered(s: State, reg: RegId)
    requires RoutesRight(s) && reg in s.alive
    ensures reg < |s.regs|
  {
    assert Registered(s, reg);
  }

  /** When the host channel is dropped nobody listens for announcements any more. */
  lemma HostDropFate(inputs: seq<Input>)
    ensures Run(inputs + [DropHost]) == Run(inputs).(hostOpen := false, inputs := Run(inputs).inputs + [DropHost])
  {
    RunOneMore(inputs, DropHost);
  }

  lemma AnnouncedMeansHeard(s: State, r: RegId)
    requires LogRight(s) && Registered(s, r) && Announced(s.log, r)
    ensures s.inputs[s.regs[r].at].info.session.Some?
            || !Quiet(s.inputs, s.regs[r].stream, s.regs[r].at + 1, |s.inputs|)
  {
  }

  lemma UnannouncedMeansSilent(s: State, r: RegId)
    requires NoneForgotten(s) && s.hostOpen && r < |s.regs| && !Announced(s.log, r)
    requires forall t :: t in s.pending ==> Waiting(s, t)
    ensures Registered(s, r) && s.inputs[s.regs[r].at].info.session.None?
            && Quiet(s.inputs, s.regs[r].stream, s.regs[r].at + 1, |s.inputs|)
  {
  }

  /** While the host channel is open, an unannounced registration is one whose session was unknown
      and on whose stream no frame has arrived since. */
  lemma UnannouncedIffStillSilent(inputs: seq<Input>, r: RegId)
    requires r < |Run(inputs).regs| && Run(inputs).hostOpen
    ensures var s := Run(inputs);
      Registered(s, r) &&
      (!Announced(s.log, r) <==>
        s.inputs[s.regs[r].at].info.session.None?
        && Quiet(s.inputs, s.regs[r].stream, s.regs[r].at + 1, |s.inputs|))
  {
    RunKeepsInv(inputs);
    if Announced(Run(inputs).log, r) {
      AnnouncedMeansHeard(Run(inputs), r);
    } else {
      UnannouncedMeansSilent(Run(inputs), r);
    }
  }
}
